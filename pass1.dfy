// Pass 1: genre from the file's own tags, falling back to hints in the directory name.

module Pass1 {
  import opened Wrappers
  import opened Text
  import opened Taxonomy
  import opened Registry
  import opened Passes

  /**
   * What the tag reader gives for a readable file: each easy tag as its list of values (an
   * absent tag is the empty list), the number of other tag keys, and the stream length when the
   * reader knows it.
   */
  datatype AudioTags = AudioTags(artist: seq<string>, title: seq<string>, album: seq<string>, genre: seq<string>,
                                 otherKeys: nat, length: Option<real>)
  {
    /** The reader's object is truthy when it holds at least one tag key. */
    predicate HasTags() {
      artist != [] || title != [] || album != [] || genre != [] || otherKeys > 0
    }
  }

  /** `_first`: the head of a non-empty list, else nothing. */
  function First(xs: seq<string>): (r: Option<string>)
    ensures r.None? <==> xs == []
    ensures r.Some? ==> r.value == xs[0] && r.value in xs
  {
    if |xs| > 0 then Some(xs[0]) else None
  }

  /** A tag's first value when it is non-empty text (Python truthiness of the string). */
  function Named(xs: seq<string>): (r: Option<string>)
    ensures r.Some? <==> |xs| > 0 && xs[0] != ""
    ensures r.Some? ==> r == First(xs)
  {
    var v := First(xs);
    if v.Some? && v.value != "" then v else None
  }

  /**
   * The artist, title, album and duration columns read from the tags; an unreadable file, or one
   * without any tag, gives none of them, not even the duration.
   */
  function TagFields(audio: Option<AudioTags>): (f: Fields)
    ensures audio.None? || !audio.value.HasTags() ==> f.IsEmpty()
    ensures f.acoustid.None? && f.musicbrainzId.None?
    ensures audio.Some? && audio.value.HasTags() ==> f.duration == audio.value.length
    ensures audio.Some? && audio.value.HasTags() ==>
      f.artist == Named(audio.value.artist) && f.title == Named(audio.value.title) && f.album == Named(audio.value.album)
  {
    if audio.None? || !audio.value.HasTags() then NoFields
    else
      var a := audio.value;
      Fields(a.length, Named(a.artist), Named(a.title), Named(a.album), None, None)
  }

  /** The genre `normalizeTag` gives the first genre tag, stripped. */
  function TagGenre(normalizeTag: Option<string> -> Option<Genre>, audio: Option<AudioTags>): (r: Option<Genre>)
    ensures r.Some? ==> audio.Some? && |audio.value.genre| > 0 && r == normalizeTag(Some(Strip(audio.value.genre[0])))
    ensures audio.Some? && |audio.value.genre| > 0 ==> r == normalizeTag(Some(Strip(audio.value.genre[0])))
  {
    if audio.Some? && |audio.value.genre| > 0 then normalizeTag(Some(Strip(audio.value.genre[0]))) else None
  }

  /**
   * The decision of `classify_track`: the tag genre if there is one, else the directory hint,
   * else nothing; the tag columns are written either way.
   */
  function Decide(normalizeTag: Option<string> -> Option<Genre>, directoryHint: string -> Option<Genre>, audio: Option<AudioTags>, directory: string): Outcome {
    var fields := TagFields(audio);
    match TagGenre(normalizeTag, audio)
    case Some(g) => Outcome(fields, Some(Verdict(g, "metadata", 0.9, Strip(audio.value.genre[0]))))
    case None =>
      match directoryHint(directory)
      case Some(g) => Outcome(fields, Some(Verdict(g, "directory", 0.7, "dir:" + directory)))
      case None => Outcome(fields, None)
  }

  /**
   * The tag route wins when the first genre tag normalises; the directory hint is consulted only
   * when it does not; the tag columns are written whatever the verdict.
   */
  lemma DecideCases(normalizeTag: Option<string> -> Option<Genre>, directoryHint: string -> Option<Genre>, audio: Option<AudioTags>, directory: string)
    ensures Decide(normalizeTag, directoryHint, audio, directory).fields == TagFields(audio)
    ensures TagGenre(normalizeTag, audio).Some? ==>
      Decide(normalizeTag, directoryHint, audio, directory).verdict
        == Some(Verdict(TagGenre(normalizeTag, audio).value, "metadata", 0.9, Strip(audio.value.genre[0])))
    ensures TagGenre(normalizeTag, audio).None? && directoryHint(directory).Some? ==>
      Decide(normalizeTag, directoryHint, audio, directory).verdict
        == Some(Verdict(directoryHint(directory).value, "directory", 0.7, "dir:" + directory))
    ensures Decide(normalizeTag, directoryHint, audio, directory).verdict.None?
        <==> TagGenre(normalizeTag, audio).None? && directoryHint(directory).None?
  {
  }

  /** Every genre pass 1 stores names a sub-genre listed under its parent. */
  lemma DecideListed(normalizeTag: Option<string> -> Option<Genre>, directoryHint: string -> Option<Genre>, audio: Option<AudioTags>, directory: string)
    requires forall raw :: TargetListed(normalizeTag(raw))
    requires forall d :: TargetListed(directoryHint(d))
    ensures Decide(normalizeTag, directoryHint, audio, directory).verdict.Some? ==>
      exists g: Genre | Listed(g) :: Decide(normalizeTag, directoryHint, audio, directory).verdict.value.parent == g.parent.Name()
                                     && Decide(normalizeTag, directoryHint, audio, directory).verdict.value.sub == g.sub
  {
    var o := Decide(normalizeTag, directoryHint, audio, directory);
    if TagGenre(normalizeTag, audio).Some? {
      var g := TagGenre(normalizeTag, audio).value;
      assert Listed(g) && o.verdict.value.parent == g.parent.Name() && o.verdict.value.sub == g.sub;
    } else if directoryHint(directory).Some? {
      var g := directoryHint(directory).value;
      assert Listed(g) && o.verdict.value.parent == g.parent.Name() && o.verdict.value.sub == g.sub;
    }
  }

  /** An unreadable or tagless file still gets the directory fallback, and writes no columns. */
  lemma UnreadableUsesDirectory(normalizeTag: Option<string> -> Option<Genre>, directoryHint: string -> Option<Genre>,
                                audio: Option<AudioTags>, directory: string)
    requires audio.None? || !audio.value.HasTags()
    ensures Decide(normalizeTag, directoryHint, audio, directory).fields.IsEmpty()
    ensures Decide(normalizeTag, directoryHint, audio, directory).verdict.Some? <==> directoryHint(directory).Some?
    ensures directoryHint(directory).Some? ==> Decide(normalizeTag, directoryHint, audio, directory).verdict.value.source == "directory"
  {
  }

  /** Pass 1's decision for a fetched row, given the tag reader's answer for each path. */
  function Decider(normalizeTag: Option<string> -> Option<Genre>, directoryHint: string -> Option<Genre>, audioOf: string -> Option<AudioTags>): Track -> Outcome {
    (t: Track) => Decide(normalizeTag, directoryHint, audioOf(t.path), t.directory)
  }

  /**
   * `classify_track` for a fetched row: tag columns first, then exactly one of
   * `update_classification(pass 1)` and `mark_pass_done(1)`; the genre group is returned when one
   * was stored. `audioOf` is what the tag reader gives for a path.
   */
  method ClassifyTrack(db: GenreDB, normalizeTag: Option<string> -> Option<Genre>, directoryHint: string -> Option<Genre>,
                       track: (int, Track), audioOf: string -> Option<AudioTags>) returns (verdict: Option<Classification>)
    requires db.Valid() && track.0 in db.tracks
    modifies db
    ensures db.Valid()
    ensures verdict == Decider(normalizeTag, directoryHint, audioOf)(track.1).verdict
    ensures db.tracks == StepTracks(old(db.tracks), track, Decider(normalizeTag, directoryHint, audioOf), 1)
    ensures db.log == old(db.log) + Logged(track.0, Decider(normalizeTag, directoryHint, audioOf)(track.1), 1)
    ensures db.pathIndex == old(db.pathIndex) && db.nextId == old(db.nextId)
  {
    var directory := track.1.directory;
    var audio := audioOf(track.1.path);
    var genre: Option<Genre> := None;
    var source := "";
    var confidence := 0.0;
    var rawLabel := "";
    var extra := NoFields;
    if audio.Some? && audio.value.HasTags() {
      var a := audio.value;
      extra := Fields(a.length, Named(a.artist), Named(a.title), Named(a.album), None, None);
      if |a.genre| > 0 {
        rawLabel := Strip(a.genre[0]);
        var result := normalizeTag(Some(rawLabel));
        if result.Some? {
          genre := result;
          source := "metadata";
          confidence := 0.9;
        }
      }
    }
    if genre.None? {
      var hint := directoryHint(directory);
      if hint.Some? {
        genre := hint;
        source := "directory";
        confidence := 0.7;
        rawLabel := "dir:" + directory;
      }
    }
    verdict := if genre.Some? then Some(Verdict(genre.value, source, confidence, rawLabel)) else None;
    assert Outcome(extra, verdict) == Decide(normalizeTag, directoryHint, audio, directory);
    WriteFieldsThenVerdict(db, track.0, Outcome(extra, verdict), 1);
  }

  /** One turn of the loop of `run_pass1`: the next fetched row is classified and counted, extending the batch. */
  method ClassifyNext(db: GenreDB, normalizeTag: Option<string> -> Option<Genre>, directoryHint: string -> Option<Genre>,
                      rows: seq<(int, Track)>, i: nat, audioOf: string -> Option<AudioTags>,
                      classified: nat, skipped: nat, ghost tracks0: map<int, Track>, ghost log0: seq<LogEntry>)
    returns (classified': nat, skipped': nat)
    requires db.Valid() && Fetched(tracks0, rows) && i < |rows|
    requires db.tracks == BatchTracks(tracks0, rows[..i], Decider(normalizeTag, directoryHint, audioOf), 1)
    requires db.log == BatchLog(log0, rows[..i], Decider(normalizeTag, directoryHint, audioOf), 1)
    requires classified == CountVerdicts(rows[..i], Decider(normalizeTag, directoryHint, audioOf)) && classified + skipped == i
    modifies db
    ensures db.Valid()
    ensures db.pathIndex == old(db.pathIndex) && db.nextId == old(db.nextId)
    ensures db.tracks == BatchTracks(tracks0, rows[..i + 1], Decider(normalizeTag, directoryHint, audioOf), 1)
    ensures db.log == BatchLog(log0, rows[..i + 1], Decider(normalizeTag, directoryHint, audioOf), 1)
    ensures classified' == CountVerdicts(rows[..i + 1], Decider(normalizeTag, directoryHint, audioOf)) && classified' + skipped' == i + 1
  {
    ghost var decide := Decider(normalizeTag, directoryHint, audioOf);
    BatchStep(tracks0, log0, rows, i, decide, 1);
    BatchMonotone(tracks0, rows[..i], decide, 1);
    CountStep(rows, i, decide);
    var verdict := ClassifyTrack(db, normalizeTag, directoryHint, rows[i], audioOf);
    classified', skipped' := classified, skipped;
    if verdict.Some? {
      classified' := classified + 1;
    } else {
      skipped' := skipped + 1;
    }
  }

  /** The loop of `run_pass1` over the fetched rows, counting the outcomes. */
  method ClassifyRows(db: GenreDB, normalizeTag: Option<string> -> Option<Genre>, directoryHint: string -> Option<Genre>,
                      rows: seq<(int, Track)>, audioOf: string -> Option<AudioTags>)
    returns (classified: nat, skipped: nat)
    requires db.Valid() && Fetched(db.tracks, rows)
    modifies db
    ensures db.Valid()
    ensures db.pathIndex == old(db.pathIndex) && db.nextId == old(db.nextId)
    ensures db.tracks == BatchTracks(old(db.tracks), rows, Decider(normalizeTag, directoryHint, audioOf), 1)
    ensures db.log == BatchLog(old(db.log), rows, Decider(normalizeTag, directoryHint, audioOf), 1)
    ensures classified == CountVerdicts(rows, Decider(normalizeTag, directoryHint, audioOf))
    ensures classified + skipped == |rows|
  {
    classified, skipped := 0, 0;
    var i := 0;
    while i < |rows|
      invariant 0 <= i <= |rows|
      invariant db.Valid()
      invariant db.pathIndex == old(db.pathIndex) && db.nextId == old(db.nextId)
      invariant db.tracks == BatchTracks(old(db.tracks), rows[..i], Decider(normalizeTag, directoryHint, audioOf), 1)
      invariant db.log == BatchLog(old(db.log), rows[..i], Decider(normalizeTag, directoryHint, audioOf), 1)
      invariant classified == CountVerdicts(rows[..i], Decider(normalizeTag, directoryHint, audioOf)) && classified + skipped == i
    {
      classified, skipped := ClassifyNext(db, normalizeTag, directoryHint, rows, i, audioOf, classified, skipped, old(db.tracks), old(db.log));
      i := i + 1;
    }
    assert rows[..i] == rows;
  }

  /**
   * `run_pass1`: songs whose pass-1 flag is clear are handled once each and counted as
   * classified or skipped; at most `limit` of them when there is a limit, and all of them when
   * there is none or fewer exist. `audioOf` is what the tag reader gives for a path.
   */
  method RunPass1(db: GenreDB, normalizeTag: Option<string> -> Option<Genre>, directoryHint: string -> Option<Genre>, limit: Option<int>, audioOf: string -> Option<AudioTags>)
    returns (classified: nat, skipped: nat, ghost fetched: seq<(int, Track)>)
    requires db.Valid()
    modifies db
    ensures db.Valid()
    ensures db.pathIndex == old(db.pathIndex) && db.nextId == old(db.nextId)
    ensures Fetched(old(db.tracks), fetched)
    ensures RowIds(fetched) <= NeedingIds(old(db.tracks), 1, "song")
    ensures Unlimited(limit) ==> RowIds(fetched) == NeedingIds(old(db.tracks), 1, "song")
    ensures !Unlimited(limit) ==> |fetched| <= limit.value
    ensures !Unlimited(limit) && |fetched| < limit.value ==> RowIds(fetched) == NeedingIds(old(db.tracks), 1, "song")
    ensures db.tracks == BatchTracks(old(db.tracks), fetched, Decider(normalizeTag, directoryHint, audioOf), 1)
    ensures db.log == BatchLog(old(db.log), fetched, Decider(normalizeTag, directoryHint, audioOf), 1)
    ensures classified == CountVerdicts(fetched, Decider(normalizeTag, directoryHint, audioOf))
    ensures classified + skipped == |fetched|
  {
    var rows := db.GetTracksNeedingPass(1, "song", limit);
    fetched := rows;
    classified, skipped := ClassifyRows(db, normalizeTag, directoryHint, rows, audioOf);
  }
}
