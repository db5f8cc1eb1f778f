/**
 * File discovery and change detection: which files of the media tree are indexed, with
 * which content type, and how a scan reconciles the registry with the files it found
 * (new rows, rescanned rows, removed rows).
 */
module Scanner {
  import opened Wrappers
  import opened Text
  import opened Taxonomy
  import opened Registry

  const AudioExtensions: set<string> := {".mp3", ".ogg", ".flac", ".wav", ".m4a", ".opus", ".wma"}

  /** Top-level directories that are neither music nor station content. */
  const SkipDirs: set<string> := {
    "lost+found", "configs", "html", "random_assets", "scripts",
    "log", "kstk", "gdrive", "radiobot", "__pycache__"
  }

  // ---------------------------------------------------------------- extensions

  /**
   * POSIX `splitext`: the extension runs from the last dot of the last path component, but
   * only when a character other than a dot precedes that dot within the component.
   */
  function SplitExt(p: string): (r: (string, string))
    ensures r.0 + r.1 == p
    ensures r.1 == [] || (r.1[0] == '.' && '.' !in r.1[1..] && '/' !in r.1)
  {
    var sep := LastIndex(p, '/');
    var dot := LastIndex(p, '.');
    if dot > sep && HasStem(p, sep, dot) then
      assert forall j | 0 <= j < |p[dot..]| :: p[dot..][j] == p[dot + j];
      (p[..dot], p[dot..])
    else (p, [])
  }

  /** Some character strictly between `lo` and `hi` is not a dot. */
  predicate HasStem(p: string, lo: int, hi: int)
    requires -1 <= lo && hi <= |p|
  {
    exists k | lo < k < hi :: p[k] != '.'
  }

  /** A name with a non-dot character before its last dot has that dotted tail as extension. */
  lemma SplitExtOf(stem: string, tail: string, k: int)
    requires '.' !in tail && '/' !in tail
    requires 0 <= k < |stem| && stem[k] != '.' && '/' !in stem[k..]
    ensures SplitExt(stem + "." + tail) == (stem, "." + tail)
  {
    var p := stem + "." + tail;
    assert p[|stem|] == '.';
    assert p[|stem| + 1..] == tail;
    var dot := LastIndex(p, '.');
    assert dot == |stem|;
    var sep := LastIndex(p, '/');
    assert p[k..] == stem[k..] + "." + tail;
    assert '/' !in p[k..];
    assert p[k] != '.';
    assert p[..dot] == stem && p[dot..] == "." + tail;
  }

  /** A name whose last component is all dots before its last dot has no extension. */
  lemma HiddenNameHasNoExtension(dots: string, tail: string)
    requires forall i | 0 <= i < |dots| :: dots[i] == '.'
    requires '.' !in tail && '/' !in tail
    ensures SplitExt(dots + "." + tail) == (dots + "." + tail, [])
  {
    var p := dots + "." + tail;
    assert p[|dots|] == '.';
    assert p[|dots| + 1..] == tail;
    var dot := LastIndex(p, '.');
    assert dot == |dots|;
    assert '/' !in p by {
      forall j | 0 <= j < |p| ensures p[j] != '/' {
        if j > |dots| {
          assert p[j] == tail[j - |dots| - 1];
        }
      }
    }
    assert LastIndex(p, '/') == -1;
    assert !HasStem(p, -1, dot);
  }

  /** `is_audio_file`: the lower-cased extension is one of the audio extensions. */
  predicate IsAudioFile(filename: string) {
    Lower(SplitExt(filename).1) in AudioExtensions
  }

  /** A name with a stem is audio exactly when its lower-cased dotted tail is an audio extension. */
  lemma AudioByExtension(stem: string, tail: string, k: int)
    requires '.' !in tail && '/' !in tail
    requires 0 <= k < |stem| && stem[k] != '.' && '/' !in stem[k..]
    ensures IsAudioFile(stem + "." + tail) <==> Lower("." + tail) in AudioExtensions
  {
    SplitExtOf(stem, tail, k);
  }

  /** A bare extension such as ".mp3" is a hidden file, not an audio file. */
  lemma BareExtensionIsNotAudio(tail: string)
    requires '.' !in tail && '/' !in tail
    ensures !IsAudioFile("." + tail)
  {
    HiddenNameHasNoExtension([], tail);
    assert [] + "." + tail == "." + tail;
    assert Lower([]) == [];
  }

  /** The comparison ignores case: a name with a stem ending in ".FLAC" is audio. */
  lemma UpperCaseExtensionIsAudio(stem: string, k: int)
    requires 0 <= k < |stem| && stem[k] != '.' && '/' !in stem[k..]
    ensures IsAudioFile(stem + ".FLAC")
  {
    AudioByExtension(stem, "FLAC", k);
    assert stem + "." + "FLAC" == stem + ".FLAC" && "." + "FLAC" == ".FLAC";
    LowerFlac();
  }

  lemma LowerFlac()
    ensures Lower(".FLAC") == ".flac" && ".flac" in AudioExtensions
  {
    var low := Lower(".FLAC");
    assert low[0] == '.' && low[1] == 'f' && low[2] == 'l' && low[3] == 'a' && low[4] == 'c';
  }

  /** Other extensions are not audio: a name with a stem ending in ".txt" is not. */
  lemma TextFileIsNotAudio(stem: string, k: int)
    requires 0 <= k < |stem| && stem[k] != '.' && '/' !in stem[k..]
    ensures !IsAudioFile(stem + ".txt")
  {
    AudioByExtension(stem, "txt", k);
    assert stem + "." + "txt" == stem + ".txt" && "." + "txt" == ".txt";
    LowerTxt();
  }

  lemma LowerTxt()
    ensures Lower(".txt") == ".txt" && ".txt" !in AudioExtensions
  {
    var low := Lower(".txt");
    assert low[0] == '.' && low[1] == 't' && low[2] == 'x' && low[3] == 't';
  }

  // ---------------------------------------------------------------- directories

  /** The first component of a directory relative to the media root. */
  function TopDir(relDir: string): (top: string)
    ensures '/' !in top
  {
    Split(relDir, '/')[0]
  }

  /** A directory is skipped when its top component is a skipped directory. */
  predicate Skipped(relDir: string) {
    TopDir(relDir) in SkipDirs
  }

  /** Only the top component decides whether a directory is skipped. */
  lemma SkippedByTop(top: string, rest: string)
    requires '/' !in top
    ensures Skipped(top + "/" + rest) <==> top in SkipDirs
    ensures Skipped(top) <==> top in SkipDirs
  {
    SplitCons(top, rest, '/');
    SplitWithout(top, '/');
  }

  /** The content type of a directory's files: the directory's own type, else "song". */
  function ContentTypeFor(relDir: string): (ct: string)
    ensures ct == "song" || ct in ContentTypeDirs.Values
    ensures ContentTypeFromDir(relDir).None? <==> ct == "song"
  {
    ContentTypeFromDir(relDir).GetOr("song")
  }

  /** `relpath(join(dirpath, filename), root)`: the root directory itself is ".". */
  function RelPath(relDir: string, filename: string): string {
    if relDir == "." then filename else relDir + "/" + filename
  }

  /** What `stat` reports for a file. */
  datatype Stat = Stat(size: int, mtime: real)

  /** One directory as the walk lists it: its path relative to the root and its file names. */
  datatype Directory = Directory(relDir: string, filenames: seq<string>)

  /** The record a file yields, if any: audio files that can be stat'ed. */
  function Record(relDir: string, name: string, statOf: string -> Option<Stat>): (r: Option<FileInfo>)
    ensures r.Some? <==> IsAudioFile(name) && statOf(RelPath(relDir, name)).Some?
    ensures r.Some? ==>
      && r.value.path == RelPath(relDir, name) && r.value.filename == name && r.value.directory == relDir
      && statOf(r.value.path) == Some(Stat(r.value.filesize, r.value.mtime))
      && r.value.contentType == Some(ContentTypeFor(relDir))
  {
    if !IsAudioFile(name) then None
    else
      match statOf(RelPath(relDir, name))
      case None => None
      case Some(st) => Some(FileInfo(RelPath(relDir, name), name, relDir, st.size, st.mtime, Some(ContentTypeFor(relDir))))
  }

  /** The records of a directory's names, in the given order. */
  function DirectoryRecords(names: seq<string>, rec: string -> Option<FileInfo>): seq<FileInfo> {
    if names == [] then []
    else
      var last := rec(names[|names| - 1]);
      DirectoryRecords(names[..|names| - 1], rec) + (if last.Some? then [last.value] else [])
  }

  /** The records of the files of one directory. */
  function RecordOf(relDir: string, statOf: string -> Option<Stat>): string -> Option<FileInfo> {
    name => Record(relDir, name, statOf)
  }

  /** Everything a walk yields: skipped directories produce nothing, names are visited sorted. */
  function Walked(walk: seq<Directory>, statOf: string -> Option<Stat>): seq<FileInfo> {
    Flatten(walk, d => DirectoryYield(d, statOf))
  }

  /** The yields of a sequence of items, one after another. */
  function Flatten<D>(items: seq<D>, produce: D -> seq<FileInfo>): seq<FileInfo> {
    if items == [] then [] else Flatten(items[..|items| - 1], produce) + produce(items[|items| - 1])
  }

  /** What one directory yields: nothing when it is skipped, else its records in name order. */
  function DirectoryYield(d: Directory, statOf: string -> Option<Stat>): seq<FileInfo> {
    if Skipped(d.relDir) then [] else DirectoryRecords(SortNames(d.filenames), RecordOf(d.relDir, statOf))
  }

  // ---------------------------------------------------------------- sorting names

  /** Python's string order: lexicographic by code point. */
  predicate NameLe(a: string, b: string) {
    if a == [] then true
    else if b == [] then false
    else if a[0] != b[0] then a[0] < b[0]
    else NameLe(a[1..], b[1..])
  }

  lemma {:induction false} NameLeTotal(a: string, b: string)
    ensures NameLe(a, b) || NameLe(b, a)
  {
    if a != [] && b != [] && a[0] == b[0] {
      NameLeTotal(a[1..], b[1..]);
    }
  }

  predicate NamesSorted(s: seq<string>) {
    forall i | 0 <= i < |s| - 1 :: NameLe(s[i], s[i + 1])
  }

  function InsertName(x: string, r: seq<string>): seq<string> {
    if r == [] || NameLe(x, r[0]) then [x] + r
    else [r[0]] + InsertName(x, r[1..])
  }

  /** `sorted(filenames)`. */
  function SortNames(names: seq<string>): seq<string> {
    if names == [] then [] else InsertName(names[0], SortNames(names[1..]))
  }

  lemma {:induction false} InsertNamePermutes(x: string, r: seq<string>)
    ensures multiset(InsertName(x, r)) == multiset(r) + multiset{x}
  {
    if r != [] && !NameLe(x, r[0]) {
      InsertNamePermutes(x, r[1..]);
      assert r == [r[0]] + r[1..];
    }
  }

  lemma {:induction false} InsertNameSorted(x: string, r: seq<string>)
    requires NamesSorted(r)
    ensures NamesSorted(InsertName(x, r))
    ensures |r| > 0 ==> InsertName(x, r)[0] == x || InsertName(x, r)[0] == r[0]
  {
    if r == [] || NameLe(x, r[0]) {
    } else {
      NameLeTotal(x, r[0]);
      InsertNameSorted(x, r[1..]);
    }
  }

  /** Sorting orders the names and keeps each of them. */
  lemma {:induction false} SortNamesSorts(names: seq<string>)
    ensures NamesSorted(SortNames(names))
    ensures multiset(SortNames(names)) == multiset(names)
  {
    if names != [] {
      SortNamesSorts(names[1..]);
      InsertNameSorted(names[0], SortNames(names[1..]));
      InsertNamePermutes(names[0], SortNames(names[1..]));
      assert names == [names[0]] + names[1..];
    }
  }

  // ---------------------------------------------------------------- what a walk yields

  /** The inner loop of `scan_files`: one record per audio file of the directory that can be stat'ed. */
  method ScanDirectory(relDir: string, names: seq<string>, statOf: string -> Option<Stat>) returns (files: seq<FileInfo>)
    ensures files == DirectoryRecords(names, RecordOf(relDir, statOf))
  {
    files := [];
    var j := 0;
    while j < |names|
      invariant 0 <= j <= |names|
      invariant files == DirectoryRecords(names[..j], RecordOf(relDir, statOf))
    {
      var name := names[j];
      assert names[..j + 1][..j] == names[..j];
      if IsAudioFile(name) {
        var path := RelPath(relDir, name);
        var st := statOf(path);
        if st.Some? {
          files := files + [FileInfo(path, name, relDir, st.value.size, st.value.mtime, Some(ContentTypeFor(relDir)))];
        }
      }
      j := j + 1;
    }
    assert names[..|names|] == names;
  }

  /** `scan_files`: walk the directories, skipping excluded trees, yielding one record per audio file. */
  method ScanFiles(walk: seq<Directory>, statOf: string -> Option<Stat>) returns (files: seq<FileInfo>)
    ensures files == Walked(walk, statOf)
  {
    files := [];
    var i := 0;
    while i < |walk|
      invariant 0 <= i <= |walk|
      invariant files == Walked(walk[..i], statOf)
    {
      var d := walk[i];
      assert walk[..i + 1][..i] == walk[..i];
      if !Skipped(d.relDir) {
        var found := ScanDirectory(d.relDir, SortNames(d.filenames), statOf);
        files := files + found;
      }
      i := i + 1;
    }
    assert walk[..|walk|] == walk;
  }

  lemma {:induction false} DirectoryRecordsMembers(names: seq<string>, rec: string -> Option<FileInfo>, r: FileInfo)
    ensures r in DirectoryRecords(names, rec) <==> exists name | name in names :: rec(name) == Some(r)
  {
    if names != [] {
      var pre := names[..|names| - 1];
      DirectoryRecordsMembers(pre, rec, r);
      assert names == pre + [names[|names| - 1]];
      assert forall name :: name in names <==> name in pre || name == names[|names| - 1];
    }
  }

  lemma {:induction false} InsertNameMembers(x: string, r: seq<string>, y: string)
    ensures y in InsertName(x, r) <==> y == x || y in r
  {
    if r != [] && !NameLe(x, r[0]) {
      InsertNameMembers(x, r[1..], y);
      assert r == [r[0]] + r[1..];
    }
  }

  /** Sorting keeps exactly the names it was given. */
  lemma {:induction false} SortNamesMembers(names: seq<string>, y: string)
    ensures y in SortNames(names) <==> y in names
  {
    if names != [] {
      SortNamesMembers(names[1..], y);
      InsertNameMembers(names[0], SortNames(names[1..]), y);
      assert names == [names[0]] + names[1..];
    }
  }

  /** The walk lists `name` in directory `d`, which is not skipped, and the file yields `r`. */
  predicate Lists(d: Directory, name: string, statOf: string -> Option<Stat>, r: FileInfo) {
    name in d.filenames && !Skipped(d.relDir) && Record(d.relDir, name, statOf) == Some(r)
  }

  /** What one directory yields: the records of its listed audio files, unless it is skipped. */
  lemma DirectoryYields(d: Directory, statOf: string -> Option<Stat>, r: FileInfo)
    ensures r in DirectoryYield(d, statOf) <==> exists name :: Lists(d, name, statOf, r)
  {
    var rec := RecordOf(d.relDir, statOf);
    DirectoryRecordsMembers(SortNames(d.filenames), rec, r);
    if r in DirectoryRecords(SortNames(d.filenames), rec) {
      var name :| name in SortNames(d.filenames) && rec(name) == Some(r);
      SortNamesMembers(d.filenames, name);
      if !Skipped(d.relDir) {
        assert Lists(d, name, statOf, r);
      }
    }
    if exists name :: Lists(d, name, statOf, r) {
      var name :| Lists(d, name, statOf, r);
      SortNamesMembers(d.filenames, name);
      assert rec(name) == Some(r);
    }
  }

  lemma {:induction false} FlattenMembers<D>(items: seq<D>, produce: D -> seq<FileInfo>, r: FileInfo)
    ensures r in Flatten(items, produce) <==> exists j | 0 <= j < |items| :: r in produce(items[j])
  {
    if items != [] {
      var pre := items[..|items| - 1];
      FlattenMembers(pre, produce, r);
      if r in Flatten(pre, produce) {
        var j :| 0 <= j < |pre| && r in produce(pre[j]);
        assert pre[j] == items[j];
      }
      if exists j | 0 <= j < |items| :: r in produce(items[j]) {
        var j :| 0 <= j < |items| && r in produce(items[j]);
        if j < |pre| {
          assert pre[j] == items[j];
        }
      }
    }
  }

  /**
   * A record is yielded exactly when its file is an audio file, can be stat'ed, and is listed
   * in a directory of the walk that is not skipped.
   */
  lemma WalkedMembers(walk: seq<Directory>, statOf: string -> Option<Stat>, r: FileInfo)
    ensures r in Walked(walk, statOf) <==> exists j, name | 0 <= j < |walk| :: Lists(walk[j], name, statOf, r)
  {
    FlattenMembers(walk, d => DirectoryYield(d, statOf), r);
    if r in Walked(walk, statOf) {
      var j :| 0 <= j < |walk| && r in DirectoryYield(walk[j], statOf);
      DirectoryYields(walk[j], statOf, r);
    }
    if exists j, name | 0 <= j < |walk| :: Lists(walk[j], name, statOf, r) {
      var j, name :| 0 <= j < |walk| && Lists(walk[j], name, statOf, r);
      DirectoryYields(walk[j], statOf, r);
    }
  }

  // ---------------------------------------------------------------- reconciling the registry

  /** The registry's rows, its path index and its next row id. */
  datatype Table = Table(tracks: map<int, Track>, pathIndex: map<string, int>, nextId: int)

  /** The registry's own consistency, without the log. */
  ghost predicate TableValid(tab: Table) {
    && 1 <= tab.nextId
    && (forall id | id in tab.tracks ::
          1 <= id < tab.nextId && tab.tracks[id].path in tab.pathIndex && tab.pathIndex[tab.tracks[id].path] == id)
    && (forall p | p in tab.pathIndex :: tab.pathIndex[p] in tab.tracks && tab.tracks[tab.pathIndex[p]].path == p)
  }

  /** The paths of a sequence of records. */
  function Paths(files: seq<FileInfo>): set<string> {
    if files == [] then {} else Paths(files[..|files| - 1]) + {files[|files| - 1].path}
  }

  lemma {:induction false} PathsMembers(files: seq<FileInfo>, p: string)
    ensures p in Paths(files) <==> exists k | 0 <= k < |files| :: files[k].path == p
  {
    if files != [] {
      var pre := files[..|files| - 1];
      PathsMembers(pre, p);
      assert forall k | 0 <= k < |pre| :: pre[k] == files[k];
    }
  }

  /** No path occurs twice. */
  predicate Distinct(files: seq<FileInfo>) {
    forall i, j | 0 <= i < j < |files| :: files[i].path != files[j].path
  }

  /** `needs_rescan` for a known row: the stored mtime or size differs from the file's. */
  predicate Changed(t: Track, info: FileInfo) {
    t.mtime != info.mtime || t.filesize != info.filesize
  }

  /** The row exists in the table. */
  predicate Known(tab: Table, p: string) {
    p in tab.pathIndex && tab.pathIndex[p] in tab.tracks
  }

  /** `needs_rescan` against a table. */
  predicate NeedsRescanIn(tab: Table, info: FileInfo) {
    !Known(tab, info.path) || Changed(tab.tracks[tab.pathIndex[info.path]], info)
  }

  /** `upsert_track` on a table: a known path is rescanned in place, a new one gets the next id. */
  function Upsert(tab: Table, info: FileInfo): Table {
    if Known(tab, info.path) then
      var id := tab.pathIndex[info.path];
      tab.(tracks := tab.tracks[id := Rescanned(tab.tracks[id], info)])
    else
      Table(tab.tracks[tab.nextId := NewTrack(info)], tab.pathIndex[info.path := tab.nextId], tab.nextId + 1)
  }

  /** One yielded record: paths in the snapshot are written only when they need a rescan. */
  function ScanStep(tab: Table, existing: set<string>, info: FileInfo): Table {
    if info.path in existing && !NeedsRescanIn(tab, info) then tab else Upsert(tab, info)
  }

  /** The table after the upserts of a whole scan. */
  function ScanTables(tab: Table, existing: set<string>, files: seq<FileInfo>): Table {
    if files == [] then tab
    else ScanStep(ScanTables(tab, existing, files[..|files| - 1]), existing, files[|files| - 1])
  }

  /** The records counted as new: those whose path is not in the snapshot. */
  function CountNew(files: seq<FileInfo>, existing: set<string>): nat {
    if files == [] then 0
    else CountNew(files[..|files| - 1], existing) + (if files[|files| - 1].path in existing then 0 else 1)
  }

  /** The records counted as updated: snapshot paths that needed a rescan when they came up. */
  function CountUpdated(tab: Table, existing: set<string>, files: seq<FileInfo>): nat {
    if files == [] then 0
    else
      var pre := files[..|files| - 1];
      var info := files[|files| - 1];
      CountUpdated(tab, existing, pre)
        + (if info.path in existing && NeedsRescanIn(ScanTables(tab, existing, pre), info) then 1 else 0)
  }

  /** The ids the given paths have in the index. */
  function IdsOf(index: map<string, int>, paths: set<string>): set<int> {
    set p | p in paths && p in index :: index[p]
  }

  /** The log without the entries of the given tracks. */
  function WithoutTracks(log: seq<LogEntry>, ids: set<int>): seq<LogEntry> {
    if log == [] then []
    else if log[0].trackId in ids then WithoutTracks(log[1..], ids)
    else [log[0]] + WithoutTracks(log[1..], ids)
  }

  /** The registry after a scan: the upserts, then the snapshot paths that were not seen removed. */
  function Reconciled(tab: Table, files: seq<FileInfo>): Table {
    var mid := ScanTables(tab, tab.pathIndex.Keys, files);
    var gone := tab.pathIndex.Keys - Paths(files);
    Table(mid.tracks - IdsOf(mid.pathIndex, gone), mid.pathIndex - gone, mid.nextId)
  }

  /** The rescanned result for a known row: unchanged rows are not written. */
  function ScanResult(t: Track, info: FileInfo): Track {
    if Changed(t, info) then Rescanned(t, info) else t
  }

  /** Equal except for the scan-level columns: classification, tags and pass flags are kept. */
  predicate SameExceptScan(a: Track, b: Track) {
    a.(filename := b.filename, directory := b.directory, filesize := b.filesize, mtime := b.mtime) == b
  }

  /** A step keeps the table consistent, keeps every id and classification, and indexes the path. */
  lemma StepKeepsIndex(tab: Table, existing: set<string>, info: FileInfo)
    requires TableValid(tab)
    ensures var r := ScanStep(tab, existing, info);
      && TableValid(r) && r.nextId >= tab.nextId
      && r.pathIndex.Keys == tab.pathIndex.Keys + {info.path}
      && (forall p | p in tab.pathIndex :: r.pathIndex[p] == tab.pathIndex[p])
      && (forall id | id in tab.tracks :: id in r.tracks && SameExceptScan(r.tracks[id], tab.tracks[id]))
  {
  }

  /** A step leaves every row of another path alone. */
  lemma StepLeaves(tab: Table, existing: set<string>, info: FileInfo, id: int)
    requires TableValid(tab) && id in tab.tracks && tab.tracks[id].path != info.path
    ensures id in ScanStep(tab, existing, info).tracks
    ensures ScanStep(tab, existing, info).tracks[id] == tab.tracks[id]
  {
  }

  /**
   * Over a whole scan the table stays consistent, ids of known paths never change, rows keep
   * their classification, and the index gains exactly the scanned paths.
   */
  lemma {:induction false} ScanKeepsIndex(tab: Table, existing: set<string>, files: seq<FileInfo>)
    requires TableValid(tab)
    ensures var r := ScanTables(tab, existing, files);
      && TableValid(r) && r.nextId >= tab.nextId
      && r.pathIndex.Keys == tab.pathIndex.Keys + Paths(files)
      && (forall p | p in tab.pathIndex :: r.pathIndex[p] == tab.pathIndex[p])
      && (forall id | id in tab.tracks :: id in r.tracks && SameExceptScan(r.tracks[id], tab.tracks[id]))
  {
    if files != [] {
      var pre := files[..|files| - 1];
      ScanKeepsIndex(tab, existing, pre);
      StepKeepsIndex(ScanTables(tab, existing, pre), existing, files[|files| - 1]);
    }
  }

  /** Every record of the path matches the stored mtime and size. */
  predicate NoChange(files: seq<FileInfo>, p: string, t: Track) {
    forall k | 0 <= k < |files| && files[k].path == p :: files[k].mtime == t.mtime && files[k].filesize == t.filesize
  }

  /** A snapshot row whose file is unchanged (or absent from the scan) is not written. */
  lemma {:induction false} ScanKeepsUnchanged(tab: Table, existing: set<string>, files: seq<FileInfo>, p: string)
    requires TableValid(tab) && p in tab.pathIndex && p in existing
    requires NoChange(files, p, tab.tracks[tab.pathIndex[p]])
    ensures tab.pathIndex[p] in ScanTables(tab, existing, files).tracks
    ensures ScanTables(tab, existing, files).tracks[tab.pathIndex[p]] == tab.tracks[tab.pathIndex[p]]
  {
    if files != [] {
      var pre := files[..|files| - 1];
      var info := files[|files| - 1];
      assert NoChange(pre, p, tab.tracks[tab.pathIndex[p]]) by {
        assert forall k | 0 <= k < |pre| :: pre[k] == files[k];
      }
      ScanKeepsUnchanged(tab, existing, pre, p);
      ScanKeepsIndex(tab, existing, pre);
      var mid := ScanTables(tab, existing, pre);
      var id := tab.pathIndex[p];
      if info.path == p {
        assert mid.pathIndex[p] == id;
        assert !NeedsRescanIn(mid, info);
      } else {
        StepLeaves(mid, existing, info, id);
      }
    }
  }

  /** With distinct paths, a snapshot row ends up rescanned exactly when its file changed. */
  lemma {:induction false} ScanRescansChanged(tab: Table, files: seq<FileInfo>, k: int)
    requires TableValid(tab) && Distinct(files)
    requires 0 <= k < |files| && files[k].path in tab.pathIndex
    ensures var id := tab.pathIndex[files[k].path];
      var r := ScanTables(tab, tab.pathIndex.Keys, files);
      id in r.tracks && r.tracks[id] == ScanResult(tab.tracks[id], files[k])
  {
    var existing := tab.pathIndex.Keys;
    var pre := files[..|files| - 1];
    var info := files[|files| - 1];
    var p := files[k].path;
    var id := tab.pathIndex[p];
    assert forall j | 0 <= j < |pre| :: pre[j] == files[j];
    ScanKeepsIndex(tab, existing, pre);
    var mid := ScanTables(tab, existing, pre);
    if k == |files| - 1 {
      ScanKeepsUnchanged(tab, existing, pre, p);
      assert mid.pathIndex[p] == id;
    } else {
      ScanRescansChanged(tab, pre, k);
      StepLeaves(mid, existing, info, id);
    }
  }

  /** With distinct paths, a path missing from the snapshot ends up as a fresh row for its record. */
  lemma {:induction false} ScanAddsNew(tab: Table, files: seq<FileInfo>, k: int)
    requires TableValid(tab) && Distinct(files)
    requires 0 <= k < |files| && files[k].path !in tab.pathIndex
    ensures var r := ScanTables(tab, tab.pathIndex.Keys, files);
      && files[k].path in r.pathIndex && r.pathIndex[files[k].path] !in tab.tracks
      && r.pathIndex[files[k].path] in r.tracks
      && r.tracks[r.pathIndex[files[k].path]] == NewTrack(files[k])
  {
    var existing := tab.pathIndex.Keys;
    var pre := files[..|files| - 1];
    var info := files[|files| - 1];
    var p := files[k].path;
    assert forall j | 0 <= j < |pre| :: pre[j] == files[j];
    ScanKeepsIndex(tab, existing, pre);
    var mid := ScanTables(tab, existing, pre);
    if k == |files| - 1 {
      PathsMembers(pre, p);
      assert p !in mid.pathIndex;
    } else {
      ScanAddsNew(tab, pre, k);
      StepKeepsIndex(mid, existing, info);
      StepLeaves(mid, existing, info, mid.pathIndex[p]);
    }
  }

  /** Records whose path is in the snapshot and whose file differs from the snapshot row. */
  function CountChanged(tab: Table, files: seq<FileInfo>): nat {
    if files == [] then 0
    else
      var info := files[|files| - 1];
      CountChanged(tab, files[..|files| - 1])
        + (if Known(tab, info.path) && Changed(tab.tracks[tab.pathIndex[info.path]], info) then 1 else 0)
  }

  /** With distinct paths, the updated count is the number of changed snapshot files. */
  lemma {:induction false} UpdatedCountsChanged(tab: Table, files: seq<FileInfo>)
    requires TableValid(tab) && Distinct(files)
    ensures CountUpdated(tab, tab.pathIndex.Keys, files) == CountChanged(tab, files)
  {
    if files != [] {
      var existing := tab.pathIndex.Keys;
      var pre := files[..|files| - 1];
      var info := files[|files| - 1];
      assert forall j | 0 <= j < |pre| :: pre[j] == files[j];
      UpdatedCountsChanged(tab, pre);
      if info.path in existing {
        ScanKeepsIndex(tab, existing, pre);
        ScanKeepsUnchanged(tab, existing, pre, info.path);
      }
    }
  }

  /** With distinct paths, the new count is the number of scanned paths missing from the snapshot. */
  lemma {:induction false} NewCountsMissing(files: seq<FileInfo>, existing: set<string>)
    requires Distinct(files)
    ensures CountNew(files, existing) == |Paths(files) - existing|
  {
    if files != [] {
      var pre := files[..|files| - 1];
      var info := files[|files| - 1];
      assert forall j | 0 <= j < |pre| :: pre[j] == files[j];
      NewCountsMissing(pre, existing);
      PathsMembers(pre, info.path);
      assert info.path !in Paths(pre);
      if info.path in existing {
        assert Paths(files) - existing == Paths(pre) - existing;
      } else {
        assert Paths(files) - existing == (Paths(pre) - existing) + {info.path};
      }
    }
  }

  /** After a scan the registry holds exactly the scanned paths, consistently indexed. */
  lemma ReconciledPaths(tab: Table, files: seq<FileInfo>)
    requires TableValid(tab)
    ensures TableValid(Reconciled(tab, files))
    ensures Reconciled(tab, files).pathIndex.Keys == Paths(files)
  {
    var mid := ScanTables(tab, tab.pathIndex.Keys, files);
    var gone := tab.pathIndex.Keys - Paths(files);
    ScanKeepsIndex(tab, tab.pathIndex.Keys, files);
    var r := Reconciled(tab, files);
    forall id | id in r.tracks
      ensures r.tracks[id].path in r.pathIndex && r.pathIndex[r.tracks[id].path] == id
    {
    }
    forall p | p in r.pathIndex
      ensures r.pathIndex[p] in r.tracks && r.tracks[r.pathIndex[p]].path == p
    {
    }
  }

  /**
   * After a scan every surviving snapshot row keeps its id and classification; one whose
   * file did not change is exactly as it was.
   */
  lemma ReconciledKeeps(tab: Table, files: seq<FileInfo>, p: string)
    requires TableValid(tab) && p in tab.pathIndex && p in Paths(files)
    ensures var r := Reconciled(tab, files); var id := tab.pathIndex[p];
      && p in r.pathIndex && r.pathIndex[p] == id && id in r.tracks
      && SameExceptScan(r.tracks[id], tab.tracks[id])
      && (NoChange(files, p, tab.tracks[id]) ==> r.tracks[id] == tab.tracks[id])
  {
    var mid := ScanTables(tab, tab.pathIndex.Keys, files);
    var gone := tab.pathIndex.Keys - Paths(files);
    var id := tab.pathIndex[p];
    ScanKeepsIndex(tab, tab.pathIndex.Keys, files);
    if NoChange(files, p, tab.tracks[id]) {
      ScanKeepsUnchanged(tab, tab.pathIndex.Keys, files, p);
    }
  }

  /** Snapshot rows whose files were not seen are gone, with their index entries. */
  lemma ReconciledDrops(tab: Table, files: seq<FileInfo>, p: string)
    requires TableValid(tab) && p in tab.pathIndex && p !in Paths(files)
    ensures p !in Reconciled(tab, files).pathIndex
    ensures tab.pathIndex[p] !in Reconciled(tab, files).tracks
  {
    ScanKeepsIndex(tab, tab.pathIndex.Keys, files);
    var mid := ScanTables(tab, tab.pathIndex.Keys, files);
    assert mid.pathIndex[p] == tab.pathIndex[p];
    assert tab.pathIndex[p] in IdsOf(mid.pathIndex, tab.pathIndex.Keys - Paths(files));
  }

  lemma {:induction false} WithoutTracksStep(log: seq<LogEntry>, ids: set<int>, id: int)
    ensures WithoutTrack(WithoutTracks(log, ids), id) == WithoutTracks(log, ids + {id})
  {
    if log != [] {
      WithoutTracksStep(log[1..], ids, id);
    }
  }

  /** One pass of the first loop of `scan_to_db`: is the record new, and was it written as an update? */
  method ScanOne(db: GenreDB, existing: set<string>, info: FileInfo) returns (isNew: bool, isUpdated: bool)
    requires db.Valid()
    modifies db
    ensures db.Valid() && db.log == old(db.log)
    ensures Table(db.tracks, db.pathIndex, db.nextId) == ScanStep(Table(old(db.tracks), old(db.pathIndex), old(db.nextId)), existing, info)
    ensures isNew <==> info.path !in existing
    ensures isUpdated <==> info.path in existing && NeedsRescanIn(Table(old(db.tracks), old(db.pathIndex), old(db.nextId)), info)
  {
    isNew, isUpdated := false, false;
    if info.path in existing {
      var changed := db.NeedsRescan(info.path, info.mtime, info.filesize);
      if changed {
        var _ := db.UpsertTrack(info);
        isUpdated := true;
      }
    } else {
      var _ := db.UpsertTrack(info);
      isNew := true;
    }
  }

  /** The first loop of `scan_to_db`: upsert new and changed files, skip unchanged ones. */
  method UpsertScanned(db: GenreDB, existing: set<string>, files: seq<FileInfo>)
    returns (seen: set<string>, newCount: nat, updatedCount: nat)
    requires db.Valid()
    modifies db
    ensures db.Valid() && db.log == old(db.log)
    ensures Table(db.tracks, db.pathIndex, db.nextId)
      == ScanTables(Table(old(db.tracks), old(db.pathIndex), old(db.nextId)), existing, files)
    ensures seen == Paths(files)
    ensures newCount == CountNew(files, existing)
    ensures updatedCount == CountUpdated(Table(old(db.tracks), old(db.pathIndex), old(db.nextId)), existing, files)
  {
    ghost var snap := Table(db.tracks, db.pathIndex, db.nextId);
    seen := {};
    newCount, updatedCount := 0, 0;
    var i := 0;
    while i < |files|
      invariant 0 <= i <= |files|
      invariant db.Valid() && db.log == old(db.log)
      invariant Table(db.tracks, db.pathIndex, db.nextId) == ScanTables(snap, existing, files[..i])
      invariant seen == Paths(files[..i])
      invariant newCount == CountNew(files[..i], existing)
      invariant updatedCount == CountUpdated(snap, existing, files[..i])
    {
      var info := files[i];
      assert files[..i + 1][..i] == files[..i];
      seen := seen + {info.path};
      var isNew, isUpdated := ScanOne(db, existing, info);
      if isNew {
        newCount := newCount + 1;
      }
      if isUpdated {
        updatedCount := updatedCount + 1;
      }
      i := i + 1;
    }
    assert files[..|files|] == files;
  }

  lemma {:induction false} WithoutNoTracks(log: seq<LogEntry>)
    ensures WithoutTracks(log, {}) == log
  {
    if log != [] {
      WithoutNoTracks(log[1..]);
    }
  }

  /** Removing one more path of `gone`: the removed paths, ids and log entries grow by one. */
  lemma RemovalStep(index: map<string, int>, tracks: map<int, Track>, log: seq<LogEntry>, gone: set<string>, rest: set<string>, p: string)
    requires p in rest && rest <= gone && p in index
    ensures var done := gone - rest;
      && gone - (rest - {p}) == done + {p} && p !in done
      && IdsOf(index, done + {p}) == IdsOf(index, done) + {index[p]}
      && index - (done + {p}) == (index - done) - {p}
      && tracks - IdsOf(index, done + {p}) == (tracks - IdsOf(index, done)) - {index[p]}
      && |done + {p}| == |done| + 1
      && WithoutTrack(WithoutTracks(log, IdsOf(index, done)), index[p]) == WithoutTracks(log, IdsOf(index, done + {p}))
  {
    var done := gone - rest;
    WithoutTracksStep(log, IdsOf(index, done), index[p]);
    assert IdsOf(index, done + {p}) == IdsOf(index, done) + {index[p]};
  }

  lemma IdsOfStable(a: map<string, int>, b: map<string, int>, paths: set<string>)
    requires forall p | p in paths :: p in a && p in b && a[p] == b[p]
    ensures IdsOf(a, paths) == IdsOf(b, paths)
  {
  }

  /** The second loop of `scan_to_db`: remove every path of `gone`, in any order. */
  method RemoveMissing(db: GenreDB, gone: set<string>) returns (removedCount: nat)
    requires db.Valid() && gone <= db.pathIndex.Keys
    modifies db
    ensures db.Valid()
    ensures db.pathIndex == old(db.pathIndex) - gone
    ensures db.tracks == old(db.tracks) - IdsOf(old(db.pathIndex), gone)
    ensures db.nextId == old(db.nextId)
    ensures db.log == WithoutTracks(old(db.log), IdsOf(old(db.pathIndex), gone))
    ensures removedCount == |gone|
  {
    ghost var index, tracks, log := db.pathIndex, db.tracks, db.log;
    var rest := gone;
    removedCount := 0;
    WithoutNoTracks(log);
    assert gone - rest == {};
    assert IdsOf(index, {}) == {};
    while rest != {}
      invariant rest <= gone
      invariant db.Valid()
      invariant db.pathIndex == index - (gone - rest)
      invariant db.tracks == tracks - IdsOf(index, gone - rest)
      invariant db.nextId == old(db.nextId)
      invariant db.log == WithoutTracks(log, IdsOf(index, gone - rest))
      invariant removedCount == |gone - rest|
      decreases |rest|
    {
      var p :| p in rest;
      RemovalStep(index, tracks, log, gone, rest, p);
      db.RemoveTrack(p);
      rest := rest - {p};
      removedCount := removedCount + 1;
    }
    assert gone - rest == gone;
  }

  /**
   * `scan_to_db`: upsert new and changed files, skip unchanged ones, then remove the rows of
   * snapshot paths that were not seen; returns the new, updated and removed counts.
   */
  method ScanToDb(db: GenreDB, walk: seq<Directory>, statOf: string -> Option<Stat>)
    returns (newCount: nat, updatedCount: nat, removedCount: nat)
    requires db.Valid()
    modifies db
    ensures db.Valid()
    ensures Table(db.tracks, db.pathIndex, db.nextId)
      == Reconciled(Table(old(db.tracks), old(db.pathIndex), old(db.nextId)), Walked(walk, statOf))
    ensures db.pathIndex.Keys == Paths(Walked(walk, statOf))
    ensures newCount == CountNew(Walked(walk, statOf), old(db.pathIndex).Keys)
    ensures updatedCount
      == CountUpdated(Table(old(db.tracks), old(db.pathIndex), old(db.nextId)), old(db.pathIndex).Keys, Walked(walk, statOf))
    ensures removedCount == |old(db.pathIndex).Keys - Paths(Walked(walk, statOf))|
    ensures db.log == WithoutTracks(old(db.log), IdsOf(old(db.pathIndex), old(db.pathIndex).Keys - Paths(Walked(walk, statOf))))
  {
    var existing := db.GetAllPaths();
    ghost var snap := Table(db.tracks, db.pathIndex, db.nextId);
    var files := ScanFiles(walk, statOf);
    var seen;
    seen, newCount, updatedCount := UpsertScanned(db, existing, files);
    ScanKeepsIndex(snap, existing, files);
    ghost var mid := Table(db.tracks, db.pathIndex, db.nextId);
    var gone := existing - seen;
    assert gone == snap.pathIndex.Keys - Paths(files);
    removedCount := RemoveMissing(db, gone);
    IdsOfStable(mid.pathIndex, snap.pathIndex, gone);
    assert Table(db.tracks, db.pathIndex, db.nextId) == Reconciled(snap, files);
    ReconciledPaths(snap, files);
  }
}
