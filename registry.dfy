// The track registry: the `tracks` and `classification_log` tables of the genre index, held as
// a map from track id to record, a path index, the next AUTOINCREMENT id and the log in
// insertion order.

module Registry {
  import opened Wrappers

  /** A pass number; the registry names its flag column `pass<n>_done`. */
  newtype PassNum = n: int | 1 <= n <= 3 witness 1

  /**
   * The genre group of a track. The registry writes the five columns in one statement and only
   * ever with all five set, so the group is either wholly present or wholly absent.
   */
  datatype Classification = Classification(parent: string, sub: string, source: string, confidence: real, raw: string)

  /** A row of `tracks`; timestamps are not modelled. */
  datatype Track = Track(
    path: string,
    filename: string,
    directory: string,
    filesize: int,
    mtime: real,
    duration: Option<real>,
    contentType: string,
    genre: Option<Classification>,
    artist: Option<string>,
    title: Option<string>,
    album: Option<string>,
    acoustid: Option<string>,
    musicbrainzId: Option<string>,
    pass1Done: bool,
    pass2Done: bool,
    pass3Done: bool)
  {
    predicate PassDone(n: PassNum) {
      if n == 1 then pass1Done else if n == 2 then pass2Done else pass3Done
    }

    /** The row after `SET pass<n>_done = 1`. */
    function WithPassDone(n: PassNum): (t: Track)
      ensures t.PassDone(n)
      ensures forall m: PassNum | m != n :: t.PassDone(m) == PassDone(m)
      ensures t.(pass1Done := pass1Done, pass2Done := pass2Done, pass3Done := pass3Done) == this
    {
      if n == 1 then this.(pass1Done := true)
      else if n == 2 then this.(pass2Done := true)
      else this.(pass3Done := true)
    }
  }

  /**
   * The extra columns a pass writes besides the genre group; `None` means the column is not
   * named in the update.
   */
  datatype Fields = Fields(
    duration: Option<real>,
    artist: Option<string>,
    title: Option<string>,
    album: Option<string>,
    acoustid: Option<string>,
    musicbrainzId: Option<string>)
  {
    predicate IsEmpty() {
      duration.None? && artist.None? && title.None? && album.None? && acoustid.None? && musicbrainzId.None?
    }
  }

  const NoFields := Fields(None, None, None, None, None, None)

  /** `a` overridden by `b` where `b` names a value. */
  function Override<T>(a: Option<T>, b: Option<T>): Option<T> {
    if b.Some? then b else a
  }

  /** The row after `UPDATE tracks SET <named columns>`: named columns take the new value. */
  function ApplyFields(t: Track, f: Fields): (r: Track)
    ensures r.(duration := t.duration, artist := t.artist, title := t.title, album := t.album,
               acoustid := t.acoustid, musicbrainzId := t.musicbrainzId) == t
    ensures f.duration.Some? ==> r.duration == f.duration
    ensures f.duration.None? ==> r.duration == t.duration
    ensures f.artist.Some? ==> r.artist == f.artist
    ensures f.artist.None? ==> r.artist == t.artist
    ensures f.title.Some? ==> r.title == f.title
    ensures f.title.None? ==> r.title == t.title
    ensures f.album.Some? ==> r.album == f.album
    ensures f.album.None? ==> r.album == t.album
    ensures f.acoustid.Some? ==> r.acoustid == f.acoustid
    ensures f.acoustid.None? ==> r.acoustid == t.acoustid
    ensures f.musicbrainzId.Some? ==> r.musicbrainzId == f.musicbrainzId
    ensures f.musicbrainzId.None? ==> r.musicbrainzId == t.musicbrainzId
  {
    t.(duration := Override(t.duration, f.duration),
       artist := Override(t.artist, f.artist),
       title := Override(t.title, f.title),
       album := Override(t.album, f.album),
       acoustid := Override(t.acoustid, f.acoustid),
       musicbrainzId := Override(t.musicbrainzId, f.musicbrainzId))
  }

  /** An empty update changes nothing. */
  lemma ApplyNoFields(t: Track, f: Fields)
    requires f.IsEmpty()
    ensures ApplyFields(t, f) == t
  {
  }

  /** Writing the same fields twice is writing them once. */
  lemma ApplyFieldsIdempotent(t: Track, f: Fields)
    ensures ApplyFields(ApplyFields(t, f), f) == ApplyFields(t, f)
  {
  }

  /** The row after `update_classification`: the genre group and the pass flag, then the extras. */
  function Classified(t: Track, c: Classification, n: PassNum, f: Fields): (r: Track)
    ensures r.genre == Some(c) && r.PassDone(n)
    ensures r.path == t.path && r.contentType == t.contentType
  {
    ApplyFields(t.(genre := Some(c)).WithPassDone(n), f)
  }

  /** What a pass decided for one track: the extra columns and, maybe, a genre. */
  datatype Outcome = Outcome(fields: Fields, verdict: Option<Classification>)

  /**
   * The row after a pass has handled it: a verdict is written with `update_classification`,
   * otherwise the flag is set with `mark_pass_done` and the extras with `update_track_fields`.
   */
  function Recorded(t: Track, o: Outcome, n: PassNum): (r: Track)
    ensures r.PassDone(n)
    ensures r.genre == if o.verdict.Some? then o.verdict else t.genre
    ensures r.path == t.path && r.contentType == t.contentType
  {
    if o.verdict.Some? then Classified(t, o.verdict.value, n, o.fields)
    else ApplyFields(t.WithPassDone(n), o.fields)
  }

  /**
   * Writing the extras before the verdict, as pass 1 does, ends in the same row: the verdict
   * writes the same extras again, and setting a flag commutes with writing the extras.
   */
  lemma FieldsFirst(t: Track, o: Outcome, n: PassNum)
    ensures o.verdict.Some? ==> Classified(ApplyFields(t, o.fields), o.verdict.value, n, o.fields) == Recorded(t, o, n)
    ensures o.verdict.None? ==> ApplyFields(t, o.fields).WithPassDone(n) == Recorded(t, o, n)
  {
    if o.verdict.Some? {
      ApplyFieldsIdempotent(t.(genre := o.verdict).WithPassDone(n), o.fields);
    }
  }

  /** A row of `classification_log`; `created_at` is not modelled. */
  datatype LogEntry = LogEntry(trackId: int, pass: PassNum, parent: string, sub: string, confidence: real, raw: string)

  function EntryFor(id: int, c: Classification, n: PassNum): LogEntry {
    LogEntry(id, n, c.parent, c.sub, c.confidence, c.raw)
  }

  /** The log rows a pass adds for one track: one per classification, none otherwise. */
  function Logged(id: int, o: Outcome, n: PassNum): (r: seq<LogEntry>)
    ensures |r| == if o.verdict.Some? then 1 else 0
    ensures forall e | e in r :: e.trackId == id && e.pass == n
  {
    if o.verdict.Some? then [EntryFor(id, o.verdict.value, n)] else []
  }

  /** `DELETE FROM classification_log WHERE track_id = id`. */
  function WithoutTrack(log: seq<LogEntry>, id: int): (r: seq<LogEntry>)
    ensures forall e | e in r :: e in log && e.trackId != id
    ensures forall e | e in log && e.trackId != id :: e in r
    ensures |r| <= |log|
  {
    if log == [] then []
    else if log[0].trackId == id then WithoutTrack(log[1..], id)
    else [log[0]] + WithoutTrack(log[1..], id)
  }

  /** The file record the scanner hands to `upsert_track`. */
  datatype FileInfo = FileInfo(path: string, filename: string, directory: string, filesize: int, mtime: real, contentType: Option<string>)

  /** A fresh row: content type from the record ("song" by default), nothing classified. */
  function NewTrack(info: FileInfo): (t: Track)
    ensures t.path == info.path && t.filename == info.filename && t.directory == info.directory
    ensures t.filesize == info.filesize && t.mtime == info.mtime
    ensures t.contentType == info.contentType.GetOr("song")
    ensures t.genre.None? && t.duration.None?
    ensures t.artist.None? && t.title.None? && t.album.None? && t.acoustid.None? && t.musicbrainzId.None?
    ensures !t.pass1Done && !t.pass2Done && !t.pass3Done
  {
    Track(info.path, info.filename, info.directory, info.filesize, info.mtime, None,
          info.contentType.GetOr("song"), None, None, None, None, None, None, false, false, false)
  }

  /** A known row after a rescan: only the scan-level columns change. */
  function Rescanned(t: Track, info: FileInfo): (r: Track)
    ensures r.filename == info.filename && r.directory == info.directory
    ensures r.filesize == info.filesize && r.mtime == info.mtime
    ensures r.(filename := t.filename, directory := t.directory, filesize := t.filesize, mtime := t.mtime) == t
  {
    t.(filename := info.filename, directory := info.directory, filesize := info.filesize, mtime := info.mtime)
  }

  /** Nothing clears a pass flag or a genre group. */
  predicate Monotone(before: map<int, Track>, after: map<int, Track>) {
    forall id | id in before && id in after ::
      (before[id].pass1Done ==> after[id].pass1Done) &&
      (before[id].pass2Done ==> after[id].pass2Done) &&
      (before[id].pass3Done ==> after[id].pass3Done) &&
      (before[id].genre.Some? ==> after[id].genre.Some?)
  }

  lemma MonotoneTrans(a: map<int, Track>, b: map<int, Track>, c: map<int, Track>)
    requires Monotone(a, b) && Monotone(b, c) && b.Keys == a.Keys
    ensures Monotone(a, c)
  {
  }

  /** `pass<n>_done = 0 AND content_type = ct`. */
  predicate Needs(t: Track, n: PassNum, contentType: string) {
    !t.PassDone(n) && t.contentType == contentType
  }

  /** `content_type = 'song' AND genre_parent IS NULL`. */
  predicate Unclassified(t: Track) {
    t.contentType == "song" && t.genre.None?
  }

  /** `if limit:` — zero and `None` add no LIMIT, and SQLite reads a negative LIMIT as none. */
  predicate Unlimited(limit: Option<int>) {
    limit.None? || limit.value <= 0
  }

  /** The ids of the rows. */
  function RowIds(rows: seq<(int, Track)>): set<int> {
    set k | 0 <= k < |rows| :: rows[k].0
  }

  /** The ids the query `pass<n>_done = 0 AND content_type = ct` selects. */
  function NeedingIds(tracks: map<int, Track>, n: PassNum, contentType: string): set<int> {
    set id | id in tracks && Needs(tracks[id], n, contentType)
  }

  /** The ids the query for unclassified songs selects. */
  function UnclassifiedIds(tracks: map<int, Track>): set<int> {
    set id | id in tracks && Unclassified(tracks[id])
  }

  lemma RowIdsAppend(rows: seq<(int, Track)>, row: (int, Track))
    ensures RowIds(rows + [row]) == RowIds(rows) + {row.0}
  {
    var r := rows + [row];
    assert r[|rows|].0 == row.0;
    forall x | x in RowIds(rows)
      ensures x in RowIds(r)
    {
      var k :| 0 <= k < |rows| && rows[k].0 == x;
      assert r[k].0 == x;
    }
  }

  /** Rows in increasing id order. */
  predicate IdsIncreasing(rows: seq<(int, Track)>) {
    forall j, k | 0 <= j < k < |rows| :: rows[j].0 < rows[k].0
  }

  class GenreDB {
    var tracks: map<int, Track>
    var pathIndex: map<string, int>
    var nextId: int
    var log: seq<LogEntry>

    /**
     * Paths are unique (the index and the rows agree both ways), ids are below the
     * AUTOINCREMENT counter, and every log row refers to an existing track.
     */
    ghost predicate Valid()
      reads this
    {
      && 1 <= nextId
      && (forall id | id in tracks :: 1 <= id < nextId && tracks[id].path in pathIndex && pathIndex[tracks[id].path] == id)
      && (forall p | p in pathIndex :: pathIndex[p] in tracks && tracks[pathIndex[p]].path == p)
      && (forall i | 0 <= i < |log| :: log[i].trackId in tracks)
    }

    /** The rows the query returns: consistent with the table and matching `Needs`. */
    ghost predicate RowsOf(rows: seq<(int, Track)>)
      reads this
    {
      forall k | 0 <= k < |rows| :: rows[k].0 in tracks && rows[k].1 == tracks[rows[k].0]
    }

    /** An empty index (`init_schema` on a new file). */
    constructor()
      ensures Valid()
      ensures tracks == map[] && pathIndex == map[] && log == [] && nextId == 1
    {
      tracks := map[];
      pathIndex := map[];
      nextId := 1;
      log := [];
    }

    /**
     * `upsert_track`: a known path keeps its id and row, with only the scan-level columns
     * refreshed; an unknown path gets a fresh row under a fresh id.
     */
    method UpsertTrack(info: FileInfo) returns (id: int)
      requires Valid()
      modifies this
      ensures Valid() && Monotone(old(tracks), tracks)
      ensures info.path in pathIndex && pathIndex[info.path] == id && id in tracks
      ensures tracks[id].mtime == info.mtime && tracks[id].filesize == info.filesize
      ensures info.path in old(pathIndex) ==>
        && id == old(pathIndex)[info.path]
        && tracks == old(tracks)[id := Rescanned(old(tracks)[id], info)]
        && pathIndex == old(pathIndex) && nextId == old(nextId)
      ensures info.path !in old(pathIndex) ==>
        && id == old(nextId) && id !in old(tracks)
        && tracks == old(tracks)[id := NewTrack(info)]
        && pathIndex == old(pathIndex)[info.path := id] && nextId == old(nextId) + 1
      ensures log == old(log)
    {
      if info.path in pathIndex {
        id := pathIndex[info.path];
        tracks := tracks[id := Rescanned(tracks[id], info)];
      } else {
        id := nextId;
        tracks := tracks[id := NewTrack(info)];
        pathIndex := pathIndex[info.path := id];
        nextId := nextId + 1;
      }
    }

    /** `needs_rescan`: an unknown path, or a stored mtime or size that differs. */
    method NeedsRescan(path: string, mtime: real, filesize: int) returns (b: bool)
      requires Valid()
      ensures b <==> path !in pathIndex || tracks[pathIndex[path]].mtime != mtime || tracks[pathIndex[path]].filesize != filesize
    {
      if path !in pathIndex {
        return true;
      }
      var row := tracks[pathIndex[path]];
      b := row.mtime != mtime || row.filesize != filesize;
    }

    /**
     * `get_tracks_needing_pass`: the tracks of the content type whose pass flag is clear, in id
     * order, stopping after `limit` rows when there is a limit.
     */
    method GetTracksNeedingPass(n: PassNum, contentType: string, limit: Option<int>) returns (rows: seq<(int, Track)>)
      requires Valid()
      ensures RowsOf(rows) && IdsIncreasing(rows)
      ensures RowIds(rows) <= NeedingIds(tracks, n, contentType)
      ensures Unlimited(limit) ==> RowIds(rows) == NeedingIds(tracks, n, contentType)
      ensures !Unlimited(limit) ==> |rows| <= limit.value
      ensures !Unlimited(limit) && |rows| < limit.value ==> RowIds(rows) == NeedingIds(tracks, n, contentType)
    {
      rows := [];
      var id := 1;
      while id < nextId && (Unlimited(limit) || |rows| < limit.value)
        invariant 1 <= id <= nextId
        invariant RowsOf(rows) && IdsIncreasing(rows)
        invariant forall k | 0 <= k < |rows| :: rows[k].0 < id
        invariant RowIds(rows) == set x | x in tracks && x < id && Needs(tracks[x], n, contentType)
        invariant !Unlimited(limit) ==> |rows| <= limit.value
      {
        if id in tracks && Needs(tracks[id], n, contentType) {
          RowIdsAppend(rows, (id, tracks[id]));
          rows := rows + [(id, tracks[id])];
        }
        id := id + 1;
      }
    }

    /**
     * `update_classification`: the genre group and the pass flag, then the extra columns, and
     * exactly one new log row.
     */
    method UpdateClassification(id: int, c: Classification, n: PassNum, extra: Fields)
      requires Valid() && id in tracks
      modifies this
      ensures Valid() && Monotone(old(tracks), tracks)
      ensures tracks == old(tracks)[id := Classified(old(tracks)[id], c, n, extra)]
      ensures log == old(log) + [EntryFor(id, c, n)]
      ensures pathIndex == old(pathIndex) && nextId == old(nextId)
    {
      tracks := tracks[id := Classified(tracks[id], c, n, extra)];
      log := log + [EntryFor(id, c, n)];
    }

    /** `mark_pass_done`: only the flag; an unknown id updates no row. */
    method MarkPassDone(id: int, n: PassNum)
      requires Valid()
      modifies this
      ensures Valid() && Monotone(old(tracks), tracks)
      ensures id in old(tracks) ==> tracks == old(tracks)[id := old(tracks)[id].WithPassDone(n)]
      ensures id !in old(tracks) ==> tracks == old(tracks)
      ensures log == old(log) && pathIndex == old(pathIndex) && nextId == old(nextId)
    {
      if id in tracks {
        tracks := tracks[id := tracks[id].WithPassDone(n)];
      }
    }

    /** `update_track_fields`: no fields is a no-op; otherwise only the named columns change. */
    method UpdateTrackFields(id: int, fields: Fields)
      requires Valid()
      modifies this
      ensures Valid() && Monotone(old(tracks), tracks)
      ensures id in old(tracks) ==> tracks == old(tracks)[id := ApplyFields(old(tracks)[id], fields)]
      ensures id !in old(tracks) || fields.IsEmpty() ==> tracks == old(tracks)
      ensures log == old(log) && pathIndex == old(pathIndex) && nextId == old(nextId)
    {
      if fields.IsEmpty() {
        if id in tracks {
          ApplyNoFields(tracks[id], fields);
        }
        return;
      }
      if id in tracks {
        tracks := tracks[id := ApplyFields(tracks[id], fields)];
      }
    }

    /** `remove_track`: the track and its log rows go; an unknown path is a no-op. */
    method RemoveTrack(path: string)
      requires Valid()
      modifies this
      ensures Valid() && Monotone(old(tracks), tracks)
      ensures path in old(pathIndex) ==>
        && tracks == old(tracks) - {old(pathIndex)[path]}
        && pathIndex == old(pathIndex) - {path}
        && log == WithoutTrack(old(log), old(pathIndex)[path])
      ensures path !in old(pathIndex) ==> tracks == old(tracks) && pathIndex == old(pathIndex) && log == old(log)
      ensures nextId == old(nextId)
    {
      if path in pathIndex {
        var id := pathIndex[path];
        log := WithoutTrack(log, id);
        tracks := tracks - {id};
        pathIndex := pathIndex - {path};
        assert forall i | 0 <= i < |log| :: log[i] in old(log) && log[i].trackId != id;
      }
    }

    /** `get_all_paths`: the set of stored paths, which is exactly the index. */
    method GetAllPaths() returns (paths: set<string>)
      requires Valid()
      ensures paths == pathIndex.Keys
      ensures forall p :: p in paths <==> exists id | id in tracks :: tracks[id].path == p
    {
      paths := set id | id in tracks :: tracks[id].path;
      forall p | p in pathIndex
        ensures p in paths
      {
        var id := pathIndex[p];
        assert id in tracks && tracks[id].path == p;
      }
    }

    /** `get_unclassified`: exactly the songs without a genre, each once. */
    method GetUnclassified() returns (rows: seq<(int, Track)>)
      requires Valid()
      ensures RowsOf(rows) && IdsIncreasing(rows)
      ensures RowIds(rows) == UnclassifiedIds(tracks)
    {
      rows := [];
      var id := 1;
      while id < nextId
        invariant 1 <= id <= nextId
        invariant RowsOf(rows) && IdsIncreasing(rows)
        invariant forall k | 0 <= k < |rows| :: rows[k].0 < id
        invariant RowIds(rows) == set x | x in tracks && x < id && Unclassified(tracks[x])
      {
        if id in tracks && Unclassified(tracks[id]) {
          RowIdsAppend(rows, (id, tracks[id]));
          rows := rows + [(id, tracks[id])];
        }
        id := id + 1;
      }
    }
  }
}
