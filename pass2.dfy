// Pass 2: an audio fingerprint is matched against AcoustID, and the genre comes from the
// MusicBrainz tags of the best-matching recording.

module Pass2 {
  import opened Wrappers
  import opened Taxonomy
  import opened Registry
  import opened Passes

  /** A recording in an AcoustID result; `id` is absent when the service gives none. */
  datatype Recording = Recording(id: Option<string>)

  /** One AcoustID result: its score (absent means 0) and its recordings. */
  datatype LookupResult = LookupResult(score: Option<real>, recordings: seq<Recording>)

  /** One MusicBrainz tag: name and vote count, each absent when the service gives none. */
  datatype MbTag = MbTag(name: Option<string>, count: Option<int>)

  /** What the fingerprinter gives for a file: the fingerprint and the duration, when known. */
  datatype Fingerprint = Fingerprint(fingerprint: Option<string>, duration: Option<real>)

  /** A taxonomy genre found among MusicBrainz tags, with its confidence and raw label. */
  datatype MbGenre = MbGenre(genre: Genre, confidence: real, raw: string)

  // ---------------------------------------------------------------- lookup_acoustid

  /** The (recording id, score) pairs of one result's recordings that have a non-empty id. */
  function RecordingMatches(score: real, recs: seq<Recording>): seq<(string, real)> {
    if recs == [] then []
    else
      var last := recs[|recs| - 1];
      RecordingMatches(score, recs[..|recs| - 1])
        + (if last.id.Some? && last.id.value != "" then [(last.id.value, score)] else [])
  }

  /** All results flattened in order to (recording id, result score), skipping id-less recordings. */
  function AcoustidMatches(results: seq<LookupResult>): seq<(string, real)> {
    if results == [] then []
    else
      var last := results[|results| - 1];
      AcoustidMatches(results[..|results| - 1]) + RecordingMatches(last.score.GetOr(0.0), last.recordings)
  }

  /** A recording of a result, by position. */
  predicate Carries(results: seq<LookupResult>, i: int, j: int, id: string, score: real) {
    0 <= i < |results| && 0 <= j < |results[i].recordings|
    && results[i].recordings[j].id == Some(id) && results[i].score.GetOr(0.0) == score
  }

  lemma {:induction false} RecordingMatchesMembers(score: real, recs: seq<Recording>, id: string, s: real)
    ensures (id, s) in RecordingMatches(score, recs)
        <==> id != "" && s == score && exists j | 0 <= j < |recs| :: recs[j].id == Some(id)
  {
    if recs != [] {
      var m := |recs| - 1;
      RecordingMatchesMembers(score, recs[..m], id, s);
      HasIdSplit(recs, recs[..m], id);
    }
  }

  /** A recording list carries `id` exactly when its front or its last recording does. */
  lemma HasIdSplit(recs: seq<Recording>, front: seq<Recording>, id: string)
    requires recs != [] && front == recs[..|recs| - 1]
    ensures (exists j | 0 <= j < |recs| :: recs[j].id == Some(id))
        <==> (exists j | 0 <= j < |front| :: front[j].id == Some(id)) || recs[|recs| - 1].id == Some(id)
  {
    if exists j | 0 <= j < |recs| :: recs[j].id == Some(id) {
      var j :| 0 <= j < |recs| && recs[j].id == Some(id);
      if j < |front| {
        assert front[j] == recs[j];
      }
    }
  }

  /**
   * `lookup_acoustid`'s shaping: a pair is in the list exactly when some result carries a
   * recording with that non-empty id and that result's score.
   */
  lemma {:induction false} AcoustidMatchesMembers(results: seq<LookupResult>, id: string, s: real)
    ensures (id, s) in AcoustidMatches(results)
        <==> id != "" && exists i, j :: Carries(results, i, j, id, s)
  {
    if results != [] {
      var m := |results| - 1;
      var last := results[m];
      AcoustidMatchesMembers(results[..m], id, s);
      RecordingMatchesMembers(last.score.GetOr(0.0), last.recordings, id, s);
      CarriesSplit(results, results[..m], id, s);
    }
  }

  /** Some result carries the recording exactly when a front result or the last one does. */
  lemma CarriesSplit(results: seq<LookupResult>, front: seq<LookupResult>, id: string, s: real)
    requires results != [] && front == results[..|results| - 1]
    ensures (exists i, j :: Carries(results, i, j, id, s))
        <==> (exists i, j :: Carries(front, i, j, id, s))
             || (results[|front|].score.GetOr(0.0) == s
                 && exists j | 0 <= j < |results[|front|].recordings| :: results[|front|].recordings[j].id == Some(id))
  {
    var m := |front|;
    if exists i, j :: Carries(results, i, j, id, s) {
      var i, j :| Carries(results, i, j, id, s);
      if i < m {
        assert Carries(front, i, j, id, s);
      }
    }
    if exists i, j :: Carries(front, i, j, id, s) {
      var i, j :| Carries(front, i, j, id, s);
      assert Carries(results, i, j, id, s);
    }
    if results[m].score.GetOr(0.0) == s
      && exists j | 0 <= j < |results[m].recordings| :: results[m].recordings[j].id == Some(id)
    {
      var j :| 0 <= j < |results[m].recordings| && results[m].recordings[j].id == Some(id);
      assert Carries(results, m, j, id, s);
    }
  }

  /**
   * `lookup_acoustid`: the flattened matches of the service's answer, or nothing when the lookup
   * raised (`response` is None).
   */
  method LookupAcoustid(response: Option<seq<LookupResult>>) returns (matches: seq<(string, real)>)
    ensures matches == Matches(response)
  {
    matches := [];
    if response.None? {
      return;
    }
    var results := response.value;
    var i := 0;
    while i < |results|
      invariant 0 <= i <= |results|
      invariant matches == AcoustidMatches(results[..i])
    {
      var score := results[i].score.GetOr(0.0);
      var recs := results[i].recordings;
      var j := 0;
      while j < |recs|
        invariant 0 <= j <= |recs|
        invariant matches == AcoustidMatches(results[..i]) + RecordingMatches(score, recs[..j])
      {
        var mbId := recs[j].id;
        if mbId.Some? && mbId.value != "" {
          matches := matches + [(mbId.value, score)];
        }
        assert recs[..j + 1][..j] == recs[..j];
        j := j + 1;
      }
      assert recs[..j] == recs;
      assert results[..i + 1][..i] == results[..i];
      i := i + 1;
    }
    assert results[..i] == results;
  }

  // ---------------------------------------------------------------- lookup_musicbrainz_tags

  /** The (name, count) pairs of the tags with a non-empty name, in order; a missing count is 0. */
  function NamedTags(tags: seq<MbTag>): seq<(string, int)> {
    if tags == [] then []
    else
      var last := tags[|tags| - 1];
      var name := last.name.GetOr("");
      NamedTags(tags[..|tags| - 1]) + (if name != "" then [(name, last.count.GetOr(0))] else [])
  }

  lemma {:induction false} NamedTagsNonEmpty(tags: seq<MbTag>)
    ensures forall k | 0 <= k < |NamedTags(tags)| :: NamedTags(tags)[k].0 != ""
  {
    if tags != [] {
      NamedTagsNonEmpty(tags[..|tags| - 1]);
    }
  }

  /** `x` placed before the first entry whose count is not above its own. */
  function Insert(x: (string, int), r: seq<(string, int)>): seq<(string, int)> {
    if r == [] || r[0].1 <= x.1 then [x] + r
    else [r[0]] + Insert(x, r[1..])
  }

  /** Python's stable `sorted` by decreasing count. */
  function SortByCount(tags: seq<(string, int)>): seq<(string, int)> {
    if tags == [] then [] else Insert(tags[0], SortByCount(tags[1..]))
  }

  predicate CountsNonIncreasing(r: seq<(string, int)>) {
    forall j, k | 0 <= j < k < |r| :: r[k].1 <= r[j].1
  }

  /** The entries with count `c`, in order. */
  function WithCount(r: seq<(string, int)>, c: int): seq<(string, int)> {
    if r == [] then []
    else (if r[0].1 == c then [r[0]] else []) + WithCount(r[1..], c)
  }

  /** Every entry's count is at most `b`. */
  predicate CountsAtMost(r: seq<(string, int)>, b: int) {
    forall k | 0 <= k < |r| :: r[k].1 <= b
  }

  lemma {:induction false} InsertSorted(x: (string, int), r: seq<(string, int)>, b: int)
    requires CountsNonIncreasing(r)
    ensures CountsNonIncreasing(Insert(x, r))
    ensures CountsAtMost(r, b) && x.1 <= b ==> CountsAtMost(Insert(x, r), b)
  {
    if r != [] && x.1 < r[0].1 {
      InsertSorted(x, r[1..], b);
      InsertSorted(x, r[1..], r[0].1);
      assert CountsAtMost(r[1..], r[0].1);
    }
  }

  lemma {:induction false} InsertPermutes(x: (string, int), r: seq<(string, int)>)
    ensures multiset(Insert(x, r)) == multiset(r) + multiset{x}
  {
    if r != [] && x.1 < r[0].1 {
      InsertPermutes(x, r[1..]);
      assert r == [r[0]] + r[1..];
    }
  }

  lemma {:induction false} InsertStable(x: (string, int), r: seq<(string, int)>, c: int)
    requires CountsNonIncreasing(r)
    ensures WithCount(Insert(x, r), c) == (if x.1 == c then [x] else []) + WithCount(r, c)
  {
    if r != [] && x.1 < r[0].1 {
      InsertStable(x, r[1..], c);
      WithCountCons(r[0], Insert(x, r[1..]), c);
      WithCountCons(r[0], r[1..], c);
      assert r == [r[0]] + r[1..];
    } else {
      WithCountCons(x, r, c);
    }
  }

  lemma WithCountCons(y: (string, int), r: seq<(string, int)>, c: int)
    ensures WithCount([y] + r, c) == (if y.1 == c then [y] else []) + WithCount(r, c)
  {
    assert ([y] + r)[1..] == r;
  }

  /**
   * The order of `lookup_musicbrainz_tags`: counts never increase, no tag is gained or lost, and
   * tags with equal counts keep their input order.
   */
  lemma {:induction false} SortByCountSorts(tags: seq<(string, int)>)
    ensures CountsNonIncreasing(SortByCount(tags))
    ensures multiset(SortByCount(tags)) == multiset(tags)
    ensures forall c :: WithCount(SortByCount(tags), c) == WithCount(tags, c)
  {
    if tags != [] {
      SortByCountSorts(tags[1..]);
      InsertSorted(tags[0], SortByCount(tags[1..]), tags[0].1);
      InsertPermutes(tags[0], SortByCount(tags[1..]));
      assert tags == [tags[0]] + tags[1..];
      forall c ensures WithCount(SortByCount(tags), c) == WithCount(tags, c) {
        InsertStable(tags[0], SortByCount(tags[1..]), c);
      }
    }
  }

  /**
   * `lookup_musicbrainz_tags`: the named tags of the service's answer ordered by decreasing
   * count, or nothing when the request raised (`response` is None).
   */
  method LookupMusicbrainzTags(response: Option<seq<MbTag>>) returns (tags: seq<(string, int)>)
    ensures tags == MbTags(response)
  {
    if response.None? {
      return [];
    }
    var data := response.value;
    var named: seq<(string, int)> := [];
    var i := 0;
    while i < |data|
      invariant 0 <= i <= |data|
      invariant named == NamedTags(data[..i])
    {
      var name := data[i].name.GetOr("");
      var count := data[i].count.GetOr(0);
      if name != "" {
        named := named + [(name, count)];
      }
      assert data[..i + 1][..i] == data[..i];
      i := i + 1;
    }
    assert data[..i] == data;
    tags := SortByCount(named);
  }

  /** The tags a MusicBrainz answer yields, as `lookup_musicbrainz_tags` returns them. */
  function MbTags(response: Option<seq<MbTag>>): seq<(string, int)> {
    if response.None? then [] else SortByCount(NamedTags(response.value))
  }

  // ---------------------------------------------------------------- classify_from_mb_tags

  /** The confidence a tag's vote count gives: `min(0.8, 0.5 + 0.05 * count)`. */
  function MbConfidence(count: int): (c: real)
    ensures c <= 0.8
    ensures count >= 0 ==> c >= 0.5
    ensures count >= 6 ==> c == 0.8
    ensures c >= 0.0 <==> count >= -10
  {
    var v := 0.5 + (count as real) * 0.05;
    if v < 0.8 then v else 0.8
  }

  /** Position of the first tag `normalizeTag` maps, or the length when none does. */
  function FirstMapped(normalizeTag: Option<string> -> Option<Genre>, tags: seq<(string, int)>): (k: nat)
    ensures k <= |tags|
    ensures forall j | 0 <= j < k :: normalizeTag(Some(tags[j].0)).None?
    ensures k < |tags| ==> normalizeTag(Some(tags[k].0)).Some?
  {
    if tags == [] then 0
    else if normalizeTag(Some(tags[0].0)).Some? then 0
    else 1 + FirstMapped(normalizeTag, tags[1..])
  }

  /**
   * `classify_from_mb_tags`: the first tag, in list order, that the tag table maps, with the
   * count's confidence and raw label "mb:" + name; nothing when no tag maps.
   */
  function ClassifyFromMbTags(normalizeTag: Option<string> -> Option<Genre>, tags: seq<(string, int)>): (r: Option<MbGenre>)
    ensures r.Some? ==> r.value.confidence <= 0.8
    ensures r.Some? && (forall k | 0 <= k < |tags| :: tags[k].1 >= -10) ==> r.value.confidence >= 0.0
  {
    var k := FirstMapped(normalizeTag, tags);
    if k == |tags| then None
    else Some(MbGenre(normalizeTag(Some(tags[k].0)).value, MbConfidence(tags[k].1), "mb:" + tags[k].0))
  }

  /**
   * `classify_from_mb_tags` answers nothing exactly when no tag maps, and otherwise answers for a
   * tag that maps with every earlier tag unmapped.
   */
  lemma ClassifyFromMbTagsFirst(normalizeTag: Option<string> -> Option<Genre>, tags: seq<(string, int)>)
    ensures ClassifyFromMbTags(normalizeTag, tags).None? <==> forall k | 0 <= k < |tags| :: normalizeTag(Some(tags[k].0)).None?
    ensures ClassifyFromMbTags(normalizeTag, tags).Some? ==> exists k | 0 <= k < |tags| ::
      (forall j | 0 <= j < k :: normalizeTag(Some(tags[j].0)).None?)
      && normalizeTag(Some(tags[k].0)).Some?
      && ClassifyFromMbTags(normalizeTag, tags).value
         == MbGenre(normalizeTag(Some(tags[k].0)).value, MbConfidence(tags[k].1), "mb:" + tags[k].0)
  {
    var k := FirstMapped(normalizeTag, tags);
    if k < |tags| {
      assert normalizeTag(Some(tags[k].0)).Some?;
    }
  }

  /** The stored confidence is at most 0.8 times a non-negative match score, so at most 0.8 for a score up to 1. */
  lemma StoredConfidenceBound(m: MbGenre, score: real)
    requires m.confidence <= 0.8 && score >= 0.0
    ensures Scaled(m.confidence, score) <= 0.8 * score
    ensures score <= 1.0 ==> Scaled(m.confidence, score) <= 0.8
    ensures m.confidence >= 0.0 ==> Scaled(m.confidence, score) >= 0.0
  {
    ProductNonNegative(0.8 - m.confidence, score);
    assert (0.8 - m.confidence) * score == 0.8 * score - m.confidence * score;
    if score <= 1.0 {
      assert 0.8 * score <= 0.8;
    }
    if m.confidence >= 0.0 {
      ProductNonNegative(m.confidence, score);
    }
  }

  lemma ProductNonNegative(a: real, b: real)
    requires a >= 0.0 && b >= 0.0
    ensures a * b >= 0.0
  {
  }

  // ---------------------------------------------------------------- classify_track

  /** A MusicBrainz confidence scaled by the AcoustID match score. */
  function Scaled(confidence: real, score: real): real {
    confidence * score
  }

  /** The fingerprint's first 32 characters, as stored in the acoustid column. */
  function Truncated(fp: string): (r: string)
    ensures |r| <= 32 && r <= fp
    ensures |fp| <= 32 ==> r == fp
  {
    if |fp| <= 32 then fp else fp[..32]
  }

  /** The duration column, written only when the duration is known and non-zero. */
  function DurationFields(duration: Option<real>): (f: Fields)
    ensures f.artist.None? && f.title.None? && f.album.None? && f.acoustid.None? && f.musicbrainzId.None?
    ensures f.IsEmpty() <==> duration.None? || duration.value == 0.0
  {
    if duration.Some? && duration.value != 0.0 then NoFields.(duration := duration) else NoFields
  }

  /** The matches an AcoustID answer gives, as `lookup_acoustid` returns them. */
  function Matches(response: Option<seq<LookupResult>>): seq<(string, real)> {
    if response.None? then [] else AcoustidMatches(response.value)
  }

  /** Every match score lies between 0 and 1 when every result score does. */
  lemma {:induction false} MatchScoresInUnit(results: seq<LookupResult>)
    requires forall i | 0 <= i < |results| :: 0.0 <= results[i].score.GetOr(0.0) <= 1.0
    ensures forall k | 0 <= k < |AcoustidMatches(results)| :: 0.0 <= AcoustidMatches(results)[k].1 <= 1.0
  {
    if results != [] {
      var m := |results| - 1;
      MatchScoresInUnit(results[..m]);
      var last := results[m];
      var tail := RecordingMatches(last.score.GetOr(0.0), last.recordings);
      forall k | 0 <= k < |tail| ensures tail[k].1 == last.score.GetOr(0.0) {
        assert tail[k] in tail;
        RecordingMatchesMembers(last.score.GetOr(0.0), last.recordings, tail[k].0, tail[k].1);
      }
    }
  }

  /** The decision once the fingerprint is known and the AcoustID matches are in. */
  function DecideMatched(normalizeTag: Option<string> -> Option<Genre>, fp: string, duration: Option<real>,
                         matches: seq<(string, real)>, mbTagsOf: string -> Option<seq<MbTag>>): Outcome
  {
    if matches == [] then Outcome(DurationFields(duration), None)
    else
      var mbId := matches[0].0;
      var fields := DurationFields(duration).(acoustid := Some(Truncated(fp)), musicbrainzId := Some(mbId));
      var found := ClassifyFromMbTags(normalizeTag, MbTags(mbTagsOf(mbId)));
      if found.None? then Outcome(fields, None)
      else Outcome(fields, Some(Verdict(found.value.genre, "acoustid", Scaled(found.value.confidence, matches[0].1), found.value.raw)))
  }

  /**
   * The decision of `classify_track` for a track the fingerprinter gave `probe`: `lookupOf`
   * answers an AcoustID query for a fingerprint and duration, `mbTagsOf` a MusicBrainz query for
   * a recording id.
   */
  function Decide(normalizeTag: Option<string> -> Option<Genre>, probe: Fingerprint,
                  lookupOf: (string, Option<real>) -> Option<seq<LookupResult>>,
                  mbTagsOf: string -> Option<seq<MbTag>>): Outcome
  {
    if probe.fingerprint.None? || probe.fingerprint.value == "" then Outcome(NoFields, None)
    else
      var fp := probe.fingerprint.value;
      DecideMatched(normalizeTag, fp, probe.duration, Matches(lookupOf(fp, probe.duration)), mbTagsOf)
  }

  /**
   * No match: the flag and the duration only. After a match the truncated fingerprint, the
   * recording id and the duration are written whatever the verdict, and a genre comes from the
   * first match's tags, its confidence scaled by the match score.
   */
  lemma DecideMatchedCases(normalizeTag: Option<string> -> Option<Genre>, fp: string, duration: Option<real>,
                           matches: seq<(string, real)>, mbTagsOf: string -> Option<seq<MbTag>>)
    ensures matches == [] ==> DecideMatched(normalizeTag, fp, duration, matches, mbTagsOf) == Outcome(DurationFields(duration), None)
    ensures matches != [] ==>
      var o := DecideMatched(normalizeTag, fp, duration, matches, mbTagsOf);
      var found := ClassifyFromMbTags(normalizeTag, MbTags(mbTagsOf(matches[0].0)));
      && o.fields == DurationFields(duration).(acoustid := Some(Truncated(fp)), musicbrainzId := Some(matches[0].0))
      && (o.verdict.Some? <==> found.Some?)
      && (found.Some? ==> o.verdict.value.source == "acoustid"
                          && o.verdict.value.confidence == Scaled(found.value.confidence, matches[0].1)
                          && o.verdict.value.raw == found.value.raw)
  {
  }

  /** Without a usable fingerprint only the pass flag is set. */
  lemma NoFingerprintMarksOnly(normalizeTag: Option<string> -> Option<Genre>, probe: Fingerprint,
                               lookupOf: (string, Option<real>) -> Option<seq<LookupResult>>,
                               mbTagsOf: string -> Option<seq<MbTag>>)
    requires probe.fingerprint.None? || probe.fingerprint.value == ""
    ensures Decide(normalizeTag, probe, lookupOf, mbTagsOf).fields.IsEmpty()
    ensures Decide(normalizeTag, probe, lookupOf, mbTagsOf).verdict.None?
  {
  }

  /** A stored pass-2 confidence is at most 0.8 when the match scores lie between 0 and 1 (see `MatchScoresInUnit`). */
  lemma DecideMatchedBound(normalizeTag: Option<string> -> Option<Genre>, fp: string, duration: Option<real>,
                           matches: seq<(string, real)>, mbTagsOf: string -> Option<seq<MbTag>>)
    requires forall k | 0 <= k < |matches| :: 0.0 <= matches[k].1 <= 1.0
    ensures var o := DecideMatched(normalizeTag, fp, duration, matches, mbTagsOf);
      o.verdict.Some? ==> matches != [] && o.verdict.value.confidence <= 0.8 * matches[0].1 && o.verdict.value.confidence <= 0.8
    ensures var o := DecideMatched(normalizeTag, fp, duration, matches, mbTagsOf);
      o.verdict.Some? && (forall k | 0 <= k < |MbTags(mbTagsOf(matches[0].0))| :: MbTags(mbTagsOf(matches[0].0))[k].1 >= -10)
      ==> o.verdict.value.confidence >= 0.0
  {
    if matches != [] {
      var found := ClassifyFromMbTags(normalizeTag, MbTags(mbTagsOf(matches[0].0)));
      if found.Some? {
        StoredConfidenceBound(found.value, matches[0].1);
      }
    }
  }

  /**
   * The part of `classify_track` after the AcoustID lookup: the columns are collected step by
   * step, the MusicBrainz tags of the best match are consulted, and the verdict is written before
   * the columns.
   */
  method ClassifyMatched(db: GenreDB, normalizeTag: Option<string> -> Option<Genre>, id: int, fp: string, duration: Option<real>,
                         matches: seq<(string, real)>, mbTagsOf: string -> Option<seq<MbTag>>) returns (verdict: Option<Classification>)
    requires db.Valid() && id in db.tracks
    modifies db
    ensures db.Valid() && Monotone(old(db.tracks), db.tracks)
    ensures verdict == DecideMatched(normalizeTag, fp, duration, matches, mbTagsOf).verdict
    ensures db.tracks == old(db.tracks)[id := Recorded(old(db.tracks)[id], DecideMatched(normalizeTag, fp, duration, matches, mbTagsOf), 2)]
    ensures db.log == old(db.log) + Logged(id, DecideMatched(normalizeTag, fp, duration, matches, mbTagsOf), 2)
    ensures db.pathIndex == old(db.pathIndex) && db.nextId == old(db.nextId)
  {
    var extra := NoFields;
    if duration.Some? && duration.value != 0.0 {
      extra := extra.(duration := duration);
    }
    assert extra == DurationFields(duration);
    verdict := None;
    if matches != [] {
      var (mbId, score) := matches[0];
      extra := extra.(acoustid := Some(Truncated(fp)), musicbrainzId := Some(mbId));
      var tags := LookupMusicbrainzTags(mbTagsOf(mbId));
      var found := ClassifyFromMbTags(normalizeTag, tags);
      if found.Some? {
        verdict := Some(Verdict(found.value.genre, "acoustid", Scaled(found.value.confidence, score), found.value.raw));
      }
      assert mbId == matches[0].0 && score == matches[0].1;
      assert found == ClassifyFromMbTags(normalizeTag, MbTags(mbTagsOf(matches[0].0)));
      assert extra == DecideMatched(normalizeTag, fp, duration, matches, mbTagsOf).fields;
      assert verdict == DecideMatched(normalizeTag, fp, duration, matches, mbTagsOf).verdict;
    }
    assert Outcome(extra, verdict) == DecideMatched(normalizeTag, fp, duration, matches, mbTagsOf);
    WriteVerdictThenFields(db, id, Outcome(extra, verdict), 2);
  }

  /** Pass 2's decision for a fetched row, given the fingerprinter's answer for each path. */
  function Decider(normalizeTag: Option<string> -> Option<Genre>, probeOf: string -> Fingerprint,
                   lookupOf: (string, Option<real>) -> Option<seq<LookupResult>>,
                   mbTagsOf: string -> Option<seq<MbTag>>): Track -> Outcome
  {
    (t: Track) => Decide(normalizeTag, probeOf(t.path), lookupOf, mbTagsOf)
  }

  /**
   * `classify_track` for a fetched row: without a fingerprint only `mark_pass_done(2)`;
   * otherwise the AcoustID lookup and the rest of the decision; the genre group is returned when
   * one was stored. `probeOf` is what the fingerprinter gives for a path.
   */
  method ClassifyTrack(db: GenreDB, normalizeTag: Option<string> -> Option<Genre>, track: (int, Track),
                       probeOf: string -> Fingerprint,
                       lookupOf: (string, Option<real>) -> Option<seq<LookupResult>>,
                       mbTagsOf: string -> Option<seq<MbTag>>) returns (verdict: Option<Classification>)
    requires db.Valid() && track.0 in db.tracks
    modifies db
    ensures db.Valid()
    ensures verdict == Decider(normalizeTag, probeOf, lookupOf, mbTagsOf)(track.1).verdict
    ensures db.tracks == StepTracks(old(db.tracks), track, Decider(normalizeTag, probeOf, lookupOf, mbTagsOf), 2)
    ensures db.log == old(db.log) + Logged(track.0, Decider(normalizeTag, probeOf, lookupOf, mbTagsOf)(track.1), 2)
    ensures db.pathIndex == old(db.pathIndex) && db.nextId == old(db.nextId)
  {
    var id := track.0;
    var probe := probeOf(track.1.path);
    var fingerprint := probe.fingerprint;
    if fingerprint.None? || fingerprint.value == "" {
      ApplyNoFields(db.tracks[id].WithPassDone(2), NoFields);
      db.MarkPassDone(id, 2);
      return None;
    }
    var matches := LookupAcoustid(lookupOf(fingerprint.value, probe.duration));
    verdict := ClassifyMatched(db, normalizeTag, id, fingerprint.value, probe.duration, matches, mbTagsOf);
  }

  /** No AcoustID key: none given, or an empty one. */
  predicate NoKey(apiKey: Option<string>) {
    apiKey.None? || apiKey.value == ""
  }

  /** One turn of the loop of `run_pass2`: the next fetched row is classified and counted, extending the batch. */
  method ClassifyNext(db: GenreDB, normalizeTag: Option<string> -> Option<Genre>, rows: seq<(int, Track)>, i: nat,
                      probeOf: string -> Fingerprint,
                      lookupOf: (string, Option<real>) -> Option<seq<LookupResult>>,
                      mbTagsOf: string -> Option<seq<MbTag>>,
                      classified: nat, skipped: nat, ghost tracks0: map<int, Track>, ghost log0: seq<LogEntry>)
    returns (classified': nat, skipped': nat)
    requires db.Valid() && Fetched(tracks0, rows) && i < |rows|
    requires db.tracks == BatchTracks(tracks0, rows[..i], Decider(normalizeTag, probeOf, lookupOf, mbTagsOf), 2)
    requires db.log == BatchLog(log0, rows[..i], Decider(normalizeTag, probeOf, lookupOf, mbTagsOf), 2)
    requires classified == CountVerdicts(rows[..i], Decider(normalizeTag, probeOf, lookupOf, mbTagsOf)) && classified + skipped == i
    modifies db
    ensures db.Valid()
    ensures db.pathIndex == old(db.pathIndex) && db.nextId == old(db.nextId)
    ensures db.tracks == BatchTracks(tracks0, rows[..i + 1], Decider(normalizeTag, probeOf, lookupOf, mbTagsOf), 2)
    ensures db.log == BatchLog(log0, rows[..i + 1], Decider(normalizeTag, probeOf, lookupOf, mbTagsOf), 2)
    ensures classified' == CountVerdicts(rows[..i + 1], Decider(normalizeTag, probeOf, lookupOf, mbTagsOf)) && classified' + skipped' == i + 1
  {
    ghost var decide := Decider(normalizeTag, probeOf, lookupOf, mbTagsOf);
    BatchStep(tracks0, log0, rows, i, decide, 2);
    BatchMonotone(tracks0, rows[..i], decide, 2);
    CountStep(rows, i, decide);
    var verdict := ClassifyTrack(db, normalizeTag, rows[i], probeOf, lookupOf, mbTagsOf);
    classified', skipped' := classified, skipped;
    if verdict.Some? {
      classified' := classified + 1;
    } else {
      skipped' := skipped + 1;
    }
  }

  /** The loop of `run_pass2` over the rows still without a genre, counting the outcomes. */
  method ClassifyRows(db: GenreDB, normalizeTag: Option<string> -> Option<Genre>, rows: seq<(int, Track)>,
                      probeOf: string -> Fingerprint,
                      lookupOf: (string, Option<real>) -> Option<seq<LookupResult>>,
                      mbTagsOf: string -> Option<seq<MbTag>>)
    returns (classified: nat, skipped: nat)
    requires db.Valid() && Fetched(db.tracks, rows)
    modifies db
    ensures db.Valid()
    ensures db.pathIndex == old(db.pathIndex) && db.nextId == old(db.nextId)
    ensures db.tracks == BatchTracks(old(db.tracks), rows, Decider(normalizeTag, probeOf, lookupOf, mbTagsOf), 2)
    ensures db.log == BatchLog(old(db.log), rows, Decider(normalizeTag, probeOf, lookupOf, mbTagsOf), 2)
    ensures classified == CountVerdicts(rows, Decider(normalizeTag, probeOf, lookupOf, mbTagsOf))
    ensures classified + skipped == |rows|
  {
    classified, skipped := 0, 0;
    var i := 0;
    while i < |rows|
      invariant 0 <= i <= |rows|
      invariant db.Valid()
      invariant db.pathIndex == old(db.pathIndex) && db.nextId == old(db.nextId)
      invariant db.tracks == BatchTracks(old(db.tracks), rows[..i], Decider(normalizeTag, probeOf, lookupOf, mbTagsOf), 2)
      invariant db.log == BatchLog(old(db.log), rows[..i], Decider(normalizeTag, probeOf, lookupOf, mbTagsOf), 2)
      invariant classified == CountVerdicts(rows[..i], Decider(normalizeTag, probeOf, lookupOf, mbTagsOf)) && classified + skipped == i
    {
      classified, skipped := ClassifyNext(db, normalizeTag, rows, i, probeOf, lookupOf, mbTagsOf, classified, skipped, old(db.tracks), old(db.log));
      i := i + 1;
    }
    assert rows[..i] == rows;
  }

  /**
   * `run_pass2`: with a dependency error or no key nothing is touched; otherwise every fetched
   * song whose genre is still empty (all of them when there is no limit) is handled once, in id
   * order, and counted as classified or skipped, while rows that already have a genre are
   * left as they are, flag included.
   */
  method RunPass2(db: GenreDB, normalizeTag: Option<string> -> Option<Genre>, errors: seq<string>, apiKey: Option<string>,
                  limit: Option<int>, probeOf: string -> Fingerprint,
                  lookupOf: (string, Option<real>) -> Option<seq<LookupResult>>,
                  mbTagsOf: string -> Option<seq<MbTag>>)
    returns (classified: nat, skipped: nat, ghost processed: seq<(int, Track)>)
    requires db.Valid()
    modifies db
    ensures db.Valid()
    ensures db.pathIndex == old(db.pathIndex) && db.nextId == old(db.nextId)
    ensures |errors| > 0 || NoKey(apiKey) ==> processed == [] && db.tracks == old(db.tracks) && db.log == old(db.log)
    ensures Fetched(old(db.tracks), processed)
    ensures RowIds(processed) <= PendingIds(old(db.tracks), 2)
    ensures |errors| == 0 && !NoKey(apiKey) && Unlimited(limit) ==> RowIds(processed) == PendingIds(old(db.tracks), 2)
    ensures !Unlimited(limit) ==> |processed| <= limit.value
    ensures db.tracks == BatchTracks(old(db.tracks), processed, Decider(normalizeTag, probeOf, lookupOf, mbTagsOf), 2)
    ensures db.log == BatchLog(old(db.log), processed, Decider(normalizeTag, probeOf, lookupOf, mbTagsOf), 2)
    ensures classified == CountVerdicts(processed, Decider(normalizeTag, probeOf, lookupOf, mbTagsOf))
    ensures classified + skipped == |processed|
  {
    processed := [];
    if |errors| > 0 || NoKey(apiKey) {
      classified, skipped := 0, 0;
      return;
    }
    var fetched := db.GetTracksNeedingPass(2, "song", limit);
    var rows := WithoutGenre(fetched);
    WithoutGenreFetched(db.tracks, fetched);
    PendingFromFetched(db.tracks, fetched, rows, 2);
    processed := rows;
    if |rows| == 0 {
      classified, skipped := 0, 0;
      return;
    }
    classified, skipped := ClassifyRows(db, normalizeTag, rows, probeOf, lookupOf, mbTagsOf);
  }
}
