// Pieces shared by the three classification passes: how a taxonomy genre is stored, and the
// "still without a genre" filter that passes 2 and 3 apply to the rows they fetch.

module Passes {
  import opened Wrappers
  import opened Taxonomy
  import opened Registry

  /** The genre group a pass stores for a taxonomy genre: the parent's name and the sub-genre. */
  function Verdict(g: Genre, source: string, confidence: real, raw: string): (c: Classification)
    ensures c.parent == g.parent.Name() && c.sub == g.sub && c.parent != ""
    ensures c.source == source && c.confidence == confidence && c.raw == raw
  {
    Classification(g.parent.Name(), g.sub, source, confidence, raw)
  }

  /** The fetched rows whose genre is still empty, in their original order. */
  function WithoutGenre(rows: seq<(int, Track)>): (r: seq<(int, Track)>)
    ensures forall k | 0 <= k < |r| :: r[k] in rows && r[k].1.genre.None?
    ensures forall k | 0 <= k < |rows| && rows[k].1.genre.None? :: rows[k] in r
    ensures |r| <= |rows|
    ensures IdsIncreasing(rows) ==> IdsIncreasing(r)
  {
    if rows == [] then []
    else
      var rest := WithoutGenre(rows[1..]);
      assert forall k | 0 <= k < |rest| :: rest[k] in rows[1..];
      if rows[0].1.genre.None? then [rows[0]] + rest else rest
  }

  /**
   * Pass 1's write order: the extra columns with `update_track_fields` when there are any, then
   * `update_classification` with the same extras or `mark_pass_done`.
   */
  method WriteFieldsThenVerdict(db: GenreDB, id: int, o: Outcome, n: PassNum)
    requires db.Valid() && id in db.tracks
    modifies db
    ensures db.Valid() && Monotone(old(db.tracks), db.tracks)
    ensures db.tracks == old(db.tracks)[id := Recorded(old(db.tracks)[id], o, n)]
    ensures db.log == old(db.log) + Logged(id, o, n)
    ensures db.pathIndex == old(db.pathIndex) && db.nextId == old(db.nextId)
  {
    ghost var t := db.tracks[id];
    FieldsFirst(t, o, n);
    if !o.fields.IsEmpty() {
      db.UpdateTrackFields(id, o.fields);
    } else {
      ApplyNoFields(t, o.fields);
    }
    if o.verdict.Some? {
      db.UpdateClassification(id, o.verdict.value, n, o.fields);
    } else {
      db.MarkPassDone(id, n);
    }
  }

  /**
   * The write order of passes 2 and 3: `update_classification` with the extra columns when there
   * is a genre, else `mark_pass_done` and then `update_track_fields` when there are extra columns.
   */
  method WriteVerdictThenFields(db: GenreDB, id: int, o: Outcome, n: PassNum)
    requires db.Valid() && id in db.tracks
    modifies db
    ensures db.Valid() && Monotone(old(db.tracks), db.tracks)
    ensures db.tracks == old(db.tracks)[id := Recorded(old(db.tracks)[id], o, n)]
    ensures db.log == old(db.log) + Logged(id, o, n)
    ensures db.pathIndex == old(db.pathIndex) && db.nextId == old(db.nextId)
  {
    if o.verdict.Some? {
      db.UpdateClassification(id, o.verdict.value, n, o.fields);
    } else {
      db.MarkPassDone(id, n);
      if !o.fields.IsEmpty() {
        db.UpdateTrackFields(id, o.fields);
      } else {
        ApplyNoFields(old(db.tracks)[id].WithPassDone(n), o.fields);
      }
    }
  }

  /** Songs whose pass-`n` flag is clear and whose genre is still empty: what passes 2 and 3 work on. */
  function PendingIds(tracks: map<int, Track>, n: PassNum): set<int> {
    set id | id in tracks && Needs(tracks[id], n, "song") && tracks[id].genre.None?
  }

  /** Filtering fetched rows by an empty genre keeps exactly the fetched ids without a genre. */
  lemma WithoutGenreFetched(tracks: map<int, Track>, rows: seq<(int, Track)>)
    requires Fetched(tracks, rows)
    ensures Fetched(tracks, WithoutGenre(rows))
    ensures RowIds(WithoutGenre(rows)) == set id | id in RowIds(rows) && id in tracks && tracks[id].genre.None?
  {
    var r := WithoutGenre(rows);
    forall id | id in RowIds(rows) && id in tracks && tracks[id].genre.None?
      ensures id in RowIds(r)
    {
      var k :| 0 <= k < |rows| && rows[k].0 == id;
      var j :| 0 <= j < |r| && r[j] == rows[k];
    }
    forall id | id in RowIds(r)
      ensures id in RowIds(rows) && id in tracks && tracks[id].genre.None?
    {
      var j :| 0 <= j < |r| && r[j].0 == id;
      var k :| 0 <= k < |rows| && rows[k] == r[j];
    }
  }

  /**
   * The rows after a pass has handled `rows` in turn: each fetched row's snapshot decides its
   * outcome, which is recorded on the current row with that id.
   */
  function BatchTracks(tracks: map<int, Track>, rows: seq<(int, Track)>, decide: Track -> Outcome, n: PassNum): map<int, Track>
  {
    if rows == [] then tracks
    else StepTracks(BatchTracks(tracks, rows[..|rows| - 1], decide, n), rows[|rows| - 1], decide, n)
  }

  /** One step of a pass: the fetched row's snapshot decides the outcome recorded on the current row. */
  function StepTracks(tracks: map<int, Track>, row: (int, Track), decide: Track -> Outcome, n: PassNum): map<int, Track>
  {
    if row.0 in tracks then tracks[row.0 := Recorded(tracks[row.0], decide(row.1), n)] else tracks
  }

  /** The log after a pass has handled `rows` in turn. */
  function BatchLog(log: seq<LogEntry>, rows: seq<(int, Track)>, decide: Track -> Outcome, n: PassNum): seq<LogEntry>
  {
    if rows == [] then log
    else BatchLog(log, rows[..|rows| - 1], decide, n) + Logged(rows[|rows| - 1].0, decide(rows[|rows| - 1].1), n)
  }

  /** How many of the rows get a genre. */
  function CountVerdicts(rows: seq<(int, Track)>, decide: Track -> Outcome): nat
  {
    if rows == [] then 0
    else CountVerdicts(rows[..|rows| - 1], decide) + (if decide(rows[|rows| - 1].1).verdict.Some? then 1 else 0)
  }

  /** Handling one more row extends the batch by that row's step, log entries and count. */
  lemma BatchStep(tracks: map<int, Track>, log: seq<LogEntry>, rows: seq<(int, Track)>, i: nat, decide: Track -> Outcome, n: PassNum)
    requires i < |rows|
    ensures BatchTracks(tracks, rows[..i + 1], decide, n) == StepTracks(BatchTracks(tracks, rows[..i], decide, n), rows[i], decide, n)
    ensures BatchLog(log, rows[..i + 1], decide, n) == BatchLog(log, rows[..i], decide, n) + Logged(rows[i].0, decide(rows[i].1), n)
    ensures CountVerdicts(rows[..i + 1], decide) == CountVerdicts(rows[..i], decide) + (if decide(rows[i].1).verdict.Some? then 1 else 0)
  {
    assert rows[..i + 1][..i] == rows[..i];
  }

  /** Handling one more row adds one to the count exactly when that row gets a genre. */
  lemma CountStep(rows: seq<(int, Track)>, i: nat, decide: Track -> Outcome)
    requires i < |rows|
    ensures CountVerdicts(rows[..i + 1], decide) == CountVerdicts(rows[..i], decide) + (if decide(rows[i].1).verdict.Some? then 1 else 0)
  {
    assert rows[..i + 1][..i] == rows[..i];
  }

  /** A batch over fetched rows: their ids are increasing and they are snapshots of `tracks`. */
  ghost predicate Fetched(tracks: map<int, Track>, rows: seq<(int, Track)>) {
    IdsIncreasing(rows) && forall k | 0 <= k < |rows| :: rows[k].0 in tracks && rows[k].1 == tracks[rows[k].0]
  }

  lemma FetchedPrefix(tracks: map<int, Track>, rows: seq<(int, Track)>, i: nat)
    requires Fetched(tracks, rows) && i <= |rows|
    ensures Fetched(tracks, rows[..i])
  {
  }

  /** A row a batch did not fetch is left as it was. */
  lemma {:induction false} BatchLeavesOthers(tracks: map<int, Track>, rows: seq<(int, Track)>, decide: Track -> Outcome, n: PassNum, x: int)
    requires x in tracks && x !in RowIds(rows)
    ensures x in BatchTracks(tracks, rows, decide, n) && BatchTracks(tracks, rows, decide, n)[x] == tracks[x]
  {
    if rows != [] {
      var m := |rows| - 1;
      RowIdsAppend(rows[..m], rows[m]);
      assert rows[..m] + [rows[m]] == rows;
      BatchLeavesOthers(tracks, rows[..m], decide, n, x);
    }
  }

  /**
   * A batch handles each fetched row once: the row becomes the outcome its snapshot decides,
   * whatever the rows after it do.
   */
  lemma {:induction false} BatchHandlesEachOnce(tracks: map<int, Track>, rows: seq<(int, Track)>, decide: Track -> Outcome, n: PassNum, k: nat)
    requires Fetched(tracks, rows) && k < |rows|
    ensures rows[k].0 in BatchTracks(tracks, rows, decide, n)
    ensures BatchTracks(tracks, rows, decide, n)[rows[k].0] == Recorded(rows[k].1, decide(rows[k].1), n)
  {
    var m := |rows| - 1;
    var front := rows[..m];
    FetchedPrefix(tracks, rows, m);
    var id := rows[m].0;
    if k == m {
      assert id !in RowIds(front) by {
        forall j | 0 <= j < |front| ensures front[j].0 != id {
          assert front[j].0 == rows[j].0 < rows[m].0;
        }
      }
      BatchLeavesOthers(tracks, front, decide, n, id);
    } else {
      assert front[k] == rows[k] && rows[k].0 < id;
      BatchHandlesEachOnce(tracks, front, decide, n, k);
    }
  }

  /** A batch clears no pass flag and no genre group. */
  lemma {:induction false} BatchMonotone(tracks: map<int, Track>, rows: seq<(int, Track)>, decide: Track -> Outcome, n: PassNum)
    ensures Monotone(tracks, BatchTracks(tracks, rows, decide, n))
    ensures BatchTracks(tracks, rows, decide, n).Keys == tracks.Keys
  {
    if rows != [] {
      var m := |rows| - 1;
      BatchMonotone(tracks, rows[..m], decide, n);
      var before := BatchTracks(tracks, rows[..m], decide, n);
      var after := BatchTracks(tracks, rows, decide, n);
      assert Monotone(before, after);
      MonotoneTrans(tracks, before, after);
    }
  }

  /**
   * A batch only appends to the log: one row per track it classifies, each of its own pass and
   * about a fetched id.
   */
  lemma {:induction false} BatchAppendsLog(log: seq<LogEntry>, rows: seq<(int, Track)>, decide: Track -> Outcome, n: PassNum)
    ensures |BatchLog(log, rows, decide, n)| == |log| + CountVerdicts(rows, decide)
    ensures BatchLog(log, rows, decide, n)[..|log|] == log
    ensures forall i | |log| <= i < |BatchLog(log, rows, decide, n)| ::
      BatchLog(log, rows, decide, n)[i].pass == n && BatchLog(log, rows, decide, n)[i].trackId in RowIds(rows)
  {
    if rows != [] {
      var m := |rows| - 1;
      BatchAppendsLog(log, rows[..m], decide, n);
      var before := BatchLog(log, rows[..m], decide, n);
      var after := BatchLog(log, rows, decide, n);
      var added := Logged(rows[m].0, decide(rows[m].1), n);
      assert after == before + added;
      assert after[..|log|] == before[..|log|];
      forall i | |log| <= i < |after|
        ensures after[i].pass == n && after[i].trackId in RowIds(rows)
      {
        if i < |before| {
          var k :| 0 <= k < m && rows[..m][k].0 == before[i].trackId;
          assert rows[k].0 == after[i].trackId;
        } else {
          assert after[i] in added;
          assert rows[m].0 in RowIds(rows);
        }
      }
    }
  }

  /**
   * The fetch of passes 2 and 3 after the genre filter: only pending ids, and all of them when
   * the fetch returned every song needing the pass.
   */
  lemma PendingFromFetched(tracks: map<int, Track>, fetched: seq<(int, Track)>, rows: seq<(int, Track)>, n: PassNum)
    requires RowIds(fetched) <= NeedingIds(tracks, n, "song")
    requires RowIds(rows) == set id | id in RowIds(fetched) && id in tracks && tracks[id].genre.None?
    ensures RowIds(rows) <= PendingIds(tracks, n)
    ensures RowIds(fetched) == NeedingIds(tracks, n, "song") ==> RowIds(rows) == PendingIds(tracks, n)
  {
  }
}
