# KNOB Radio genre indexer and now-playing helpers, in Dafny

This project models the genre-indexing pipeline of the KNOB Radio station and the pure helpers
of its now-playing display, and proves what that code promises.

- **Taxonomy** (`taxonomy.dfy`) holds the fixed data:
  - the two-level genre hierarchy (eleven parents, each with its sub-genres);
  - the sub-genre to parent index built from that hierarchy;
  - the content-type directory table;
  - the ID3 tag table, the directory-hint table and the Discogs label table.

  The tables keep the source's entries in the source's order, as sequences of pairs.
  Four lookups sit on top of them: `NormalizeTag`, `DirectoryHint`, `ContentTypeFromDir` and
  `DiscogsToKnob`.
- **Registry** (`registry.dfy`) is the `GenreDB` track store, a class with four fields:
  - the rows, keyed by id;
  - the path-to-id index;
  - the AUTOINCREMENT counter;
  - the classification log, which only grows.

  Every SQL method is a method on that state. Its invariant says that paths are unique, that
  ids lie below the counter, and that every log row refers to an existing track.
- **Passes** (`passes.dfy`, `pass1.dfy`, `pass2.dfy`, `pass3.dfy`) are the three classification
  passes:
  - pass 1 reads embedded tags, with the directory hint as fallback;
  - pass 2 uses the AcoustID fingerprint and MusicBrainz tags;
  - pass 3 uses the MAEST audio classifier.

  Each pass has a per-track decision, written as a pure function. It also has the imperative
  `classify_track` and `run_pass<n>` that write that decision into the registry. A whole batch
  is specified by `BatchTracks`, `BatchLog` and `CountVerdicts`, which are pure functions over
  the rows processed so far.
- **Scanner** (`scanner.dfy`) covers four things:
  - audio-file recognition, with POSIX `splitext`;
  - the skipped directories and the content-type rule of the directory walk;
  - the walk itself;
  - `scan_to_db`'s reconciliation of the walk with the registry: new, changed and removed files.
- **NowPlaying** (`nowplaying.dfy`) covers the helpers of the now-playing display:
  - the hourly schedule, which wraps around midnight, and the search for the next change;
  - the `M:SS` and 12-hour formatters;
  - the `key=value` metadata parser;
  - the cleanup of telnet replies;
  - the selection of the latest metadata block;
  - the artist, title and source rules of the display.
- **Text** (`text.dfy`) and **Wrappers** (`wrappers.dfy`) hold the Python string operations the
  code relies on (`strip`, `lower`, `in`, `split`, `splitlines`, `str(n)`) and `Option`.

External results become inputs of the model:
- the tag reader's record for a path;
- the fingerprint;
- the AcoustID and MusicBrainz answers;
- the classifier's inference;
- the directory walk and `stat`;
- the telnet replies;
- the hour of the clock.

No directory-hint key occurs in a path such as `chill/downtempo-mix`: the key is
`Downtempo:Lofi`, with a colon. `Taxonomy.DowntempoMixHasNoHint` proves that the path gets no
hint.

A MusicBrainz tag count below -10 gives a negative confidence: `min(0.8, 0.5 + count * 0.05)` is
not clamped from below. The model keeps this; `Pass2.MbConfidence` states that the confidence is
non-negative exactly when the count is at least -10.

## Model

| member | source | states |
|---|---|---|
| Taxonomy.ParentsComplete | genre/taxonomy.py:10-33 | every parent genre is a key of the hierarchy, listed exactly once |
| Taxonomy.AddGroup | genre/taxonomy.py:37-39 | the inner loop of the reverse-index build: after it, every sub-genre of the group maps to the group's parent, and other keys are kept |
| Taxonomy.BuildInverts | genre/taxonomy.py:36-39 | when the groups are disjoint, the reverse-index build sends every listed sub-genre to the parent it is listed under |
| Taxonomy.BuildKeys | genre/taxonomy.py:36-39 | the reverse index holds exactly the sub-genres that some group lists |
| Taxonomy.BuildKeeps | genre/taxonomy.py:36-39 | a sub-genre that no group lists keeps what the index already said about it |
| Taxonomy.TaxonomyGroupsDisjoint | genre/taxonomy.py:10-33 | no sub-genre is listed under two parents |
| Taxonomy.SubToParentOfListed | genre/taxonomy.py:36-39 | every listed sub-genre is in SUB_TO_PARENT, under the parent that lists it |
| Taxonomy.SubToParentKeys | genre/taxonomy.py:36-45 | SUB_TO_PARENT (and so VALID_SUBS) holds the listed sub-genres and nothing else |
| Taxonomy.SubToParentInvertsTaxonomy | genre/taxonomy.py:36-39 | SUB_TO_PARENT inverts TAXONOMY: a pair is listed exactly when the index maps its sub-genre to its parent |
| Taxonomy.TagTargetsListed | genre/taxonomy.py:65-161 | every non-None target of the ID3 tag table is a (parent, sub) pair with the sub-genre listed under that parent |
| Taxonomy.DiscogsTargetsListed | genre/taxonomy.py:180-498 | every non-None target of the Discogs table is a listed (parent, sub) pair |
| Taxonomy.HintTargetsListed | genre/taxonomy.py:167-173 | every directory hint names a listed (parent, sub) pair |
| Taxonomy.FindKey | genre/taxonomy.py:507 | the dictionary lookup: the position of the first pair with the key, and none exactly when no pair has it |
| Taxonomy.FindFolded | genre/taxonomy.py:510-513 | the case-insensitive scan: the first key, in table order, whose lower-case form equals the input's, and none exactly when no key does |
| Taxonomy.LookupTag | genre/taxonomy.py:506-514 | a genre found in the tag table is listed, and is the value of a key equal to the input up to case |
| Taxonomy.LookupTagExact | genre/taxonomy.py:506-508 | an exact key with a genre wins, wherever case-folded matches stand in the table |
| Taxonomy.LookupTagFolded | genre/taxonomy.py:510-513 | without an exact hit that has a genre, the first key in table order that matches once lower-cased decides, even when its value is None |
| Taxonomy.LookupTagMissing | genre/taxonomy.py:514 | with no exact or case-folded hit the result is None, just as for a key mapped to None |
| Taxonomy.NormalizeTag | genre/taxonomy.py:501-514 | an absent or empty tag gives None; any genre found is listed and comes from a table key equal to the stripped tag up to case |
| Taxonomy.NormalizeDubstep | genre/taxonomy.py:67 | "Dubstep" is an exact hit: (Bass, Dubstep) |
| Taxonomy.LookupTagUniform | genre/taxonomy.py:505-514 | when every key matching the tag up to case carries the same value, and one does, the lookup answers that value whatever the table order |
| Taxonomy.TagNormalizeFolds | genre/taxonomy.py:64-161 | on the real table, every key lowering to "dubstep" maps to (Bass, Dubstep), and every key lowering to "other" or "kulemina" maps to None |
| Taxonomy.NormalizeDubstepAnyCase | genre/taxonomy.py:67-69 | any tag whose stripped, lowered form is "dubstep" normalises to (Bass, Dubstep) |
| Taxonomy.NormalizeCatchAllAnyCase | genre/taxonomy.py:159-160 | any tag whose stripped, lowered form is "other" or "kulemina" normalises to no genre |
| Taxonomy.NormalizeUpperDubstep | genre/taxonomy.py:510-514 | "DUBSTEP" has no exact key and the case-folded lookup gives (Bass, Dubstep) |
| Taxonomy.NormalizeLowerDubstep | genre/taxonomy.py:69 | "dubstep" gives (Bass, Dubstep) |
| Taxonomy.NormalizeOther | genre/taxonomy.py:159 | "Other" is known and gives no genre |
| Taxonomy.NormalizeKulemina | genre/taxonomy.py:160 | "Kulemina" is known and gives no genre |
| Taxonomy.FirstHint | genre/taxonomy.py:519-520 | the first hint, in table order, whose lower-cased text occurs in the lower-cased path; none exactly when no hint occurs |
| Taxonomy.HintLookup | genre/taxonomy.py:517-522 | a hint found is listed and is the genre of the first hint occurring in the path; None exactly when no hint occurs |
| Taxonomy.DirectoryHint | genre/taxonomy.py:517-522 | `directory_hint` answers only listed genres |
| Taxonomy.MissesHint | genre/taxonomy.py:520 | a path that lacks a character of a hint's lower-cased text does not contain that hint |
| Taxonomy.HintsNeedMarkers | genre/taxonomy.py:167-173 | every hint contains one of '_', ':', 'r', 'a' and 'j' once lower-cased, so a path with none of them gets no hint |
| Taxonomy.DowntempoMixHasNoHint | genre/taxonomy.py:167-173 | "chill/downtempo-mix" gets no directory hint |
| Taxonomy.FirstContentDir | genre/taxonomy.py:528-530 | the first path component that is a content-type directory; none exactly when no component is |
| Taxonomy.PathParts | genre/taxonomy.py:527 | the components rejoin with "/" into the path with backslashes replaced, and contain no separator |
| Taxonomy.ContentTypeOfParts | genre/taxonomy.py:528-531 | None exactly when no component names a content type; otherwise the content type of the first one that does, which is never "song" |
| Taxonomy.ContentTypeFromDir | genre/taxonomy.py:525-531 | `content_type_from_dir` answers only content types of the table, never "song" |
| Taxonomy.PathPartsCons | genre/taxonomy.py:527 | a component without separators peels off the front of the path, after a slash or a backslash alike |
| Taxonomy.TopDirDecides | genre/taxonomy.py:528-530 | a top directory that names a content type decides the type |
| Taxonomy.ShowsIsTalking | genre/taxonomy.py:56 | "SHOWS/x" is talk |
| Taxonomy.LowerShowsIsNothing | genre/taxonomy.py:51-58 | the comparison is case-sensitive: "shows/x" names no content type |
| Taxonomy.LookupTarget | genre/taxonomy.py:536 | a dictionary `get`: a genre found is listed and is the value of a pair with exactly that key; a missing key gives None |
| Taxonomy.LookupTargetFirst | genre/taxonomy.py:536 | the pair with the key decides, None values included (the Non-Music labels) |
| Taxonomy.DiscogsToKnob | genre/taxonomy.py:534-536 | `discogs_to_knob` answers only listed genres |
| Taxonomy.NonMusicHasNoGenre | genre/taxonomy.py:473-486 | a label starting with 'N', as every Non-Music label does, gives no genre, listed or not: the only such keys are the Non-Music ones, all mapped to None |
| Taxonomy.ComedyHasNoGenre | genre/taxonomy.py:475 | "Non-Music---Comedy" gives no genre |
| Taxonomy.MusicalIsPop | genre/taxonomy.py:491 | "Stage & Screen---Musical" gives (Pop/Rock, Pop): no key of an earlier group, nor an earlier Stage & Screen key, equals it |
| Registry.Track.WithPassDone | genre/db.py:210-218 | setting a pass flag sets that flag, leaves the other flags as they were, and changes no other column |
| Registry.ApplyFields | genre/db.py:220-232 | the named columns take the new values, and every other column is kept |
| Registry.ApplyNoFields | genre/db.py:222-223 | an empty update changes nothing |
| Registry.ApplyFieldsIdempotent | genre/db.py:220-232 | writing the same fields twice is the same as writing them once |
| Registry.Classified | genre/db.py:181-199 | `update_classification` stores the genre group and sets the pass flag, keeping the path and content type |
| Registry.Recorded | genre/db.py:175-218 | after a pass handled a row, its flag is set, its genre is the verdict when there is one (otherwise it is unchanged), and its path and content type are kept |
| Registry.FieldsFirst | genre/pass1_metadata.py:76-88 | writing the extra columns before the verdict (the order pass 1 uses) gives the same row as writing them after it |
| Registry.Logged | genre/db.py:201-207 | a pass logs one row per classification and none otherwise, each for that track and pass |
| Registry.WithoutTrack | genre/db.py:294-297 | the log without a track's rows: exactly the rows of other tracks survive |
| Registry.NewTrack | genre/db.py:131-145 | a fresh row: the record's columns, content type defaulting to "song", no genre, no metadata, all pass flags clear |
| Registry.Rescanned | genre/db.py:115-130 | a known row's rescan changes filename, directory, size and mtime and nothing else |
| Registry.MonotoneTrans | genre/db.py:175-218 | "no flag and no genre cleared" composes over successive updates |
| Registry.RowIdsAppend | genre/db.py:163-173 | adding a row adds its id to the ids of the result |
| Registry.GenreDB.constructor | genre/db.py:87-96 | a new index is empty and consistent, and its counter starts at 1 |
| Registry.GenreDB.UpsertTrack | genre/db.py:105-147 | a known path keeps its id and row with only the scan-level columns refreshed (content type included: it is not refreshed); an unknown path gets a fresh row under the next id; paths stay unique; the log is untouched |
| Registry.GenreDB.NeedsRescan | genre/db.py:302-311 | true exactly when the path is unknown or the stored mtime or size differs |
| Registry.GenreDB.GetTracksNeedingPass | genre/db.py:163-173 | only rows of the content type whose pass flag is clear, each once; all of them when the limit is None or 0; at most `limit` of them otherwise, and all of them when fewer come back |
| Registry.GenreDB.UpdateClassification | genre/db.py:175-208 | the genre group and the pass flag, then the extra columns, and exactly one new log row (track, pass, genre, confidence, raw label) |
| Registry.GenreDB.MarkPassDone | genre/db.py:210-218 | only the pass flag changes, with no log row; an unknown id changes nothing |
| Registry.GenreDB.UpdateTrackFields | genre/db.py:220-232 | no fields is a no-op; otherwise only the named columns of that track change |
| Registry.GenreDB.RemoveTrack | genre/db.py:288-300 | the track, its index entry and all its log rows go, and everything else stays; an unknown path is a no-op |
| Registry.GenreDB.GetAllPaths | genre/db.py:282-286 | exactly the paths of the stored tracks |
| Registry.GenreDB.GetUnclassified | genre/db.py:272-280 | exactly the songs without a genre, each once |
| Passes.Verdict | genre/db.py:181-186 | the stored genre group names the parent and sub-genre, with the source, confidence and raw label given |
| Passes.WithoutGenre | genre/pass2_acoustid.py:221 | the filter keeps, in order, exactly the fetched rows whose genre is still empty |
| Passes.WriteFieldsThenVerdict | genre/pass1_metadata.py:75-88 | pass 1's write order leaves the row recorded with the outcome and logs once per verdict, touching no other row |
| Passes.WriteVerdictThenFields | genre/pass2_acoustid.py:180-195 | the write order of passes 2 and 3 leaves the row recorded with the outcome and logs once per verdict, touching no other row |
| Passes.WithoutGenreFetched | genre/pass2_acoustid.py:219-221 | the filtered rows are still fetched snapshots, with exactly the fetched ids that have no genre |
| Passes.BatchStep | genre/pass1_metadata.py:104-109 | handling one more row extends the batch by that row's step, its log rows and its count |
| Passes.BatchLeavesOthers | genre/pass2_acoustid.py:219-221 | a row the batch did not fetch (an already classified one, say) is left as it was, flag included |
| Passes.BatchHandlesEachOnce | genre/pass1_metadata.py:104-105 | each fetched row ends up recorded with the outcome its fetched snapshot decides |
| Passes.BatchMonotone | genre/db.py:175-218 | a batch clears no pass flag and no genre, and deletes no row |
| Passes.BatchAppendsLog | genre/db.py:201-207 | a batch only appends to the log: one row per classified track, each for its pass and a fetched id |
| Passes.PendingFromFetched | genre/pass2_acoustid.py:219-221 | after the genre filter only pending songs (flag clear, no genre) are processed, and all of them when the fetch was unlimited |
| Pass1.First | genre/pass1_metadata.py:114-118 | `_first`: the head of a non-empty list, otherwise None |
| Pass1.Named | genre/pass1_metadata.py:41-50 | a tag value is written only when its first value is non-empty text |
| Pass1.TagFields | genre/pass1_metadata.py:39-54 | an unreadable file, or a readable one without any tag (a falsy mutagen object), gives no columns, the duration included; otherwise artist, title and album when non-empty, and the duration when known |
| Pass1.TagGenre | genre/pass1_metadata.py:56-62 | only the first genre tag is used, stripped and normalised |
| Pass1.DecideCases | genre/pass1_metadata.py:56-88 | the tag route wins with "metadata"/0.9/stripped tag; the directory hint is consulted only when the tag route found nothing, with "directory"/0.7/"dir:"+directory; no verdict exactly when both fail; the tag columns are written either way |
| Pass1.DecideListed | genre/pass1_metadata.py:56-73 | every genre pass 1 stores is a listed pair |
| Pass1.UnreadableUsesDirectory | genre/pass1_metadata.py:33-39 | an unreadable or tagless file writes no columns but still gets the directory fallback |
| Pass1.ClassifyTrack | genre/pass1_metadata.py:12-92 | tag columns first, then exactly one of `update_classification(pass 1)` and `mark_pass_done(1)`; the genre is returned exactly when one was stored |
| Pass1.ClassifyNext | genre/pass1_metadata.py:104-109 | one turn of the loop extends the batch by one row and counts it as classified or skipped |
| Pass1.ClassifyRows | genre/pass1_metadata.py:101-111 | the loop handles every fetched row once, in order; classified counts the verdicts and classified + skipped = rows |
| Pass1.RunPass1 | genre/pass1_metadata.py:95-111 | only songs whose pass-1 flag is clear are handled, each once; all of them when unlimited, at most `limit` when limited, and all of them when fewer than `limit` came back; classified + skipped = number fetched |
| Pass2.RecordingMatchesMembers | genre/pass2_acoustid.py:96-99 | a result's matches are exactly its recordings with a non-empty id, paired with the result's score |
| Pass2.AcoustidMatchesMembers | genre/pass2_acoustid.py:94-99 | a (recording id, score) pair is a match exactly when some result of that score carries a recording with that id |
| Pass2.LookupAcoustid | genre/pass2_acoustid.py:80-100 | the flattened matches of the answer, in order; nothing when the lookup raised |
| Pass2.NamedTagsNonEmpty | genre/pass2_acoustid.py:116-121 | tags without a name are dropped |
| Pass2.InsertSorted | genre/pass2_acoustid.py:122 | inserting a tag into a list sorted by decreasing count keeps it sorted |
| Pass2.InsertPermutes | genre/pass2_acoustid.py:122 | insertion adds exactly the inserted tag |
| Pass2.InsertStable | genre/pass2_acoustid.py:122 | insertion keeps the order of the tags of each count, and puts the new tag first among those of its count |
| Pass2.SortByCountSorts | genre/pass2_acoustid.py:122 | sorting by `-count` gives non-increasing counts, is a permutation, and keeps equal counts in input order (a stable sort) |
| Pass2.LookupMusicbrainzTags | genre/pass2_acoustid.py:103-122 | the named tags of the answer sorted by count, nothing when the request raised |
| Pass2.MbConfidence | genre/pass2_acoustid.py:134 | min(0.8, 0.5 + 0.05·count): never above 0.8, at least 0.5 for a count ≥ 0, exactly 0.8 from a count of 6, and non-negative exactly when the count is at least -10 |
| Pass2.FirstMapped | genre/pass2_acoustid.py:130-133 | the first tag in list order that `normalize_tag` maps, every earlier one unmapped |
| Pass2.ClassifyFromMbTagsFirst | genre/pass2_acoustid.py:125-136 | no answer exactly when no tag maps; otherwise the first mapped tag's genre, its count's confidence and "mb:"+name |
| Pass2.StoredConfidenceBound | genre/pass2_acoustid.py:182 | the stored confidence is at most 0.8·score for a score ≥ 0, so at most 0.8 for a score up to 1, and non-negative when the tag's confidence is |
| Pass2.Truncated | genre/pass2_acoustid.py:172 | the stored fingerprint is a prefix of at most 32 characters, and the whole fingerprint when it is shorter |
| Pass2.DurationFields | genre/pass2_acoustid.py:155-157 | only the duration column, written exactly when the duration is known and non-zero |
| Pass2.MatchScoresInUnit | genre/pass2_acoustid.py:94-99 | every match score lies in [0, 1] when every result score does |
| Pass2.DecideMatchedCases | genre/pass2_acoustid.py:162-195 | no match: only the duration; after a match the truncated fingerprint, the recording id and the duration are written whatever the outcome; a genre comes from the best match's tags, with "acoustid" and its confidence scaled by the match score |
| Pass2.NoFingerprintMarksOnly | genre/pass2_acoustid.py:148-153 | without a fingerprint only the pass flag is set |
| Pass2.DecideMatchedBound | genre/pass2_acoustid.py:171-182 | a stored pass-2 confidence is at most 0.8 times the best match's score, so at most 0.8 when the scores lie in [0, 1], and non-negative when every tag count of the best match is at least -10 |
| Pass2.ClassifyMatched | genre/pass2_acoustid.py:155-197 | the part after fingerprinting records the decided outcome in the registry and logs it |
| Pass2.ClassifyTrack | genre/pass2_acoustid.py:139-197 | without a fingerprint only `mark_pass_done(2)`; otherwise the decided outcome is recorded; the genre is returned exactly when one was stored |
| Pass2.ClassifyNext | genre/pass2_acoustid.py:231-238 | one turn of the loop extends the batch by one row and counts it |
| Pass2.ClassifyRows | genre/pass2_acoustid.py:228-240 | the loop handles every filtered row once, in order; classified counts the verdicts and classified + skipped = rows |
| Pass2.RunPass2 | genre/pass2_acoustid.py:200-240 | a dependency error or missing key touches nothing; otherwise only fetched songs without a genre are processed (all pending ones when unlimited, at most `limit` when limited), each once, and counted |
| Pass3.TopPredictionsSize | genre/pass3_maest.py:79-106 | at most TOP_K = 5 pairs, none when the audio failed to load or is empty, and min(5, labels) otherwise |
| Pass3.TopPredictionsSorted | genre/pass3_maest.py:98 | the pairs come in non-increasing probability |
| Pass3.TopPredictionsBest | genre/pass3_maest.py:98 | no label left out has a higher probability than one kept |
| Pass3.FirstKnob | genre/pass3_maest.py:118-120 | the first prediction in list order that the Discogs table maps, every earlier one unmapped |
| Pass3.ToKnobCases | genre/pass3_maest.py:108-125 | no predictions give four Nones; otherwise the first mapped prediction wins with its probability and "maest:"+label; when none maps, only "maest:<top label> (unmapped)" |
| Pass3.MaestClassifier.constructor | genre/pass3_maest.py:57-61 | a new classifier has no labels until it is loaded |
| Pass3.MaestClassifier.Load | genre/pass3_maest.py:63-71 | loading makes the model's label list available |
| Pass3.MaestClassifier.ClassifyFile | genre/pass3_maest.py:73-106 | the top-5 (label, probability) pairs of the ranking, best first |
| Pass3.MaestClassifier.ClassifyToKnob | genre/pass3_maest.py:108-125 | the classifier's top predictions mapped to the taxonomy |
| Pass3.DecideCases | genre/pass3_maest.py:136-146 | no extra columns; a stored genre carries "maest", the winning probability and its label; the unmapped label is never stored |
| Pass3.DecideListed | genre/pass3_maest.py:136-142 | every genre pass 3 stores is a listed pair |
| Pass3.ClassifyTrack | genre/pass3_maest.py:128-151 | `update_classification(pass 3, "maest")` with no extra columns when a genre maps, else only `mark_pass_done(3)` |
| Pass3.ClassifyNext | genre/pass3_maest.py:182-189 | one turn of the loop extends the batch by one row and counts it |
| Pass3.ClassifyRows | genre/pass3_maest.py:179-191 | the loop handles every filtered row once, in order; classified + skipped = rows |
| Pass3.RunPass3 | genre/pass3_maest.py:154-191 | a dependency error touches nothing; otherwise only fetched songs without a genre are processed (at most `limit` when limited) and counted; the model is loaded once, exactly when there is something to classify |
| Scanner.SplitExt | genre/scanner.py:25 | `splitext`: stem and extension rejoin to the name; an extension starts with its only dot and has no separator |
| Scanner.SplitExtOf | genre/scanner.py:25 | a name with a non-dot character before its last dot has that dotted tail as extension |
| Scanner.HiddenNameHasNoExtension | genre/scanner.py:25 | a name whose last component is all dots before the last dot has no extension |
| Scanner.AudioByExtension | genre/scanner.py:14-25 | a name with a stem is audio exactly when its lower-cased extension is an audio extension |
| Scanner.BareExtensionIsNotAudio | genre/scanner.py:23-25 | a bare ".mp3" is a hidden file, not an audio file |
| Scanner.UpperCaseExtensionIsAudio | genre/scanner.py:25 | the test ignores case: "x.FLAC" is audio |
| Scanner.TextFileIsNotAudio | genre/scanner.py:23-25 | other extensions are not audio: "x.txt" is not |
| Scanner.TopDir | genre/scanner.py:40 | the top component of a relative directory contains no separator |
| Scanner.SkippedByTop | genre/scanner.py:39-43 | only the top component decides whether a directory is skipped |
| Scanner.ContentTypeFor | genre/scanner.py:58-59 | a file's content type is its directory's, or "song" exactly when the directory names none |
| Scanner.Record | genre/scanner.py:45-68 | a record is yielded exactly for an audio file that can be stat'ed, with its relative path, name, directory, size, mtime and content type |
| Scanner.NameLeTotal | genre/scanner.py:45 | Python's string order is total |
| Scanner.SortNamesSorts | genre/scanner.py:45 | `sorted(filenames)` is ordered and a permutation |
| Scanner.SortNamesMembers | genre/scanner.py:45 | sorting keeps exactly the names it was given |
| Scanner.ScanDirectory | genre/scanner.py:45-68 | the inner loop yields the records of the directory's names in sorted order |
| Scanner.ScanFiles | genre/scanner.py:28-68 | the walk's records: skipped trees give nothing, names are visited sorted |
| Scanner.DirectoryYields | genre/scanner.py:39-47 | a directory yields exactly the records of its listed audio files, unless it is skipped |
| Scanner.WalkedMembers | genre/scanner.py:28-68 | a record is yielded exactly when its file is audio, can be stat'ed and is listed in a walked directory that is not skipped |
| Scanner.PathsMembers | genre/scanner.py:83 | the seen paths are exactly the paths of the yielded records |
| Scanner.StepKeepsIndex | genre/scanner.py:81-97 | one upsert keeps the registry consistent, keeps every id and classification, and indexes the path |
| Scanner.StepLeaves | genre/scanner.py:81-97 | one upsert leaves the rows of other paths alone |
| Scanner.ScanKeepsIndex | genre/scanner.py:81-97 | over the whole first loop the registry stays consistent, known paths keep their ids, rows keep their classification, and the index gains exactly the scanned paths |
| Scanner.ScanKeepsUnchanged | genre/scanner.py:85-92 | a snapshot row whose file is unchanged causes no write |
| Scanner.ScanRescansChanged | genre/scanner.py:85-91 | with distinct paths, a snapshot row is rescanned exactly when its file changed |
| Scanner.ScanAddsNew | genre/scanner.py:93-97 | with distinct paths, a path missing from the snapshot gets a fresh row for its record |
| Scanner.UpdatedCountsChanged | genre/scanner.py:85-91 | with distinct paths, the updated count is the number of changed snapshot files |
| Scanner.NewCountsMissing | genre/scanner.py:93-97 | with distinct paths, the new count is the number of scanned paths missing from the snapshot |
| Scanner.ReconciledPaths | genre/scanner.py:76-105 | after a scan the registry holds exactly the scanned paths, consistently indexed |
| Scanner.ReconciledKeeps | genre/scanner.py:81-105 | a surviving snapshot row keeps its id and classification, and one whose file did not change is exactly as it was |
| Scanner.ReconciledDrops | genre/scanner.py:99-105 | snapshot rows whose files were not seen are gone, with their index entries |
| Scanner.ScanOne | genre/scanner.py:82-97 | one record is counted as new exactly when its path is not in the snapshot, and as updated exactly when it is and needs a rescan |
| Scanner.UpsertScanned | genre/scanner.py:76-97 | the first loop performs the scan's upserts and counts new and updated records, collecting the seen paths |
| Scanner.RemoveMissing | genre/scanner.py:99-105 | every unseen snapshot path is removed with its rows and log rows, and removed_count = the number of such paths |
| Scanner.ScanToDb | genre/scanner.py:71-107 | `scan_to_db`: the registry afterwards holds exactly the scanned paths; the new, updated and removed counts are as above |
| NowPlaying.FirstCovering | nowplaying.py:38-44 | the first schedule row covering the hour, with the midnight wrap-around rule; none exactly when no row covers it |
| NowPlaying.ScheduleByHour | nowplaying.py:24-45 | 22, 23, 0 and 1 are Noisefloor ("random"), 10 and 17 Pandora's Box, every other hour AUTODJ; some row always covers an hour of the day |
| NowPlaying.NextChangeFromFirst | nowplaying.py:51-56 | the search finds the least offset in 1..24 whose source differs, and finds one exactly when there is one |
| NowPlaying.NextChangeDiffers | nowplaying.py:48-56 | the next change names another source than the current one, at an hour of the day whose source it is |
| NowPlaying.NextChangeExists | nowplaying.py:48-56 | within a day the search never comes back empty |
| NowPlaying.NextChangeExamples | nowplaying.py:48-56 | from 22 the next change is at 2 to AUTODJ; from 9, at 10 to Pandora's Box |
| NowPlaying.Pad2 | nowplaying.py:166 | two digits that read back as the number |
| NowPlaying.FormatDurationReadsBack | nowplaying.py:160-166 | "M:SS" reads back as the whole seconds, with fewer than sixty seconds |
| NowPlaying.MinSecReadsBack | nowplaying.py:164-166 | minutes and seconds read back to the whole seconds |
| NowPlaying.FormatDurationExamples | nowplaying.py:160-166 | 125 gives "2:05"; a negative or unknown time gives "--:--" |
| NowPlaying.FormatHourClock | nowplaying.py:169-178 | the 12-hour clock reading in 1..12, "am" before noon and at the closing midnight, "pm" otherwise |
| NowPlaying.Unquote | nowplaying.py:127 | the value is stripped of all surrounding double quotes |
| NowPlaying.EntriesKeys | nowplaying.py:124-127 | a key is present exactly when some line sets it |
| NowPlaying.EntriesLastWins | nowplaying.py:124-127 | a key's value is the one its last line gives |
| NowPlaying.MetaOfLastWins | nowplaying.py:121-128 | the parsed block maps a line's stripped key to the stripped, unquoted value of the last line with that key |
| NowPlaying.MetaOfKeys | nowplaying.py:125 | only lines with "=" contribute keys |
| NowPlaying.ParseMetaBlock | nowplaying.py:121-128 | the loop builds the dictionary the block's lines describe |
| NowPlaying.KeptLinesSpec | nowplaying.py:101-102 | only a run of trailer lines at the end is removed, the earlier lines stay in order, and the last line kept is not a trailer |
| NowPlaying.StripTrailers | nowplaying.py:100-102 | the loop pops exactly the trailing "END"/"Bye!" lines |
| NowPlaying.CleanReply | nowplaying.py:98-103 | strip, drop the trailer lines, rejoin with newlines and strip again |
| NowPlaying.Overlay | nowplaying.py:152-155 | filename and initial_uri from the request override the block's values; every other key is kept |
| NowPlaying.CopyOverrides | nowplaying.py:151-155 | the copying loop gives the overlay |
| NowPlaying.ApplyRequest | nowplaying.py:146-155 | the request's file fields are copied over only when both telnet queries answer |
| NowPlaying.LatestBlock | nowplaying.py:134-143 | a block is chosen exactly when the reply is non-empty and has a "--- " marker, and the block holds no marker |
| NowPlaying.LastPiece | nowplaying.py:139-143 | the last piece, present exactly when there are at least two |
| NowPlaying.TelnetMeta | nowplaying.py:131-157 | an answer is never empty, and there is none without a block |
| NowPlaying.GetTelnetMetadata | nowplaying.py:131-157 | `get_telnet_metadata` as a method computes that answer |
| NowPlaying.TelnetMetaUsesLatest | nowplaying.py:137-143 | a reply whose last "--- " marker is followed by `latest` is answered from `latest` alone |
| NowPlaying.SameBlockSameMeta | nowplaying.py:143-157 | the answer depends on the reply only through its latest block |
| NowPlaying.LatestBlockIsAfterLast | nowplaying.py:138-143 | the latest block is what follows the last marker |
| NowPlaying.Basename | nowplaying.py:214 | the base name is a suffix of the path without "/" |
| NowPlaying.DetectedSource | nowplaying.py:222-231 | no file gives no source; otherwise Noisefloor, Pandora's Box or AUTODJ |
| NowPlaying.MergePrefersTelnet | nowplaying.py:193-201 | telnet's artist and title win when present, and Icecast fills only the empty ones |
| NowPlaying.DisplaySource | nowplaying.py:221-233 | the source is Noisefloor for a path with "MOBCOIN", else Pandora's Box for "pandoras_box", else AUTODJ; the scheduled source when no file is known |
| NowPlaying.DisplaySchedule | nowplaying.py:263-271 | the schedule row names the current source until the next change's hour, and "up next" names a different source at that hour |
| NowPlaying.TrackTextCases | nowplaying.py:204-216 | "artist - title" when both are set, else the title, else the file's base name, else "No track info" |
| Text.StripSet | nowplaying.py:127 | `strip(chars)` removes the longest prefix and suffix of those characters and nothing else |
| Text.StripSetIdempotent | nowplaying.py:127 | stripping twice is stripping once |
| Text.Lower | genre/taxonomy.py:511 | `lower()` maps each character, keeping the length |
| Text.Contains | genre/taxonomy.py:520 | `in` on strings holds exactly when the needle occurs somewhere |
| Text.Find | nowplaying.py:138 | the first occurrence of the needle, or -1 exactly when there is none |
| Text.SplitOn | nowplaying.py:138 | `split(sep)`: the pieces rejoin to the string, contain no separator, and there is one piece exactly when the separator is absent |
| Text.SplitOnLastIsAfterLast | nowplaying.py:143 | the last piece of a split is what follows the last separator |
| Text.Split | genre/taxonomy.py:527 | `split(c)`: the pieces rejoin to the string and contain no separator |
| Text.ReplaceChar | genre/taxonomy.py:527 | `replace` changes exactly the occurrences of the character |
| Text.SplitLines | nowplaying.py:124 | `splitlines()`: no line contains a line boundary, and an empty string gives no lines |
| Text.SplitLinesJoin | nowplaying.py:124 | the lines are the text between the breaks: for text broken only by '\n' and not ending in one, joining the lines with '\n' gives the text back |
| Text.NatToStringRoundTrip | nowplaying.py:166 | `str(n)` reads back as `n` |

## Left out

- Inputs from the outside world are parameters of the model:
  - the tag reader (mutagen), with "unreadable" as `None` and the number of tag keys beyond artist,
    title, album and genre as a count;
  - the fingerprinter (fpcalc);
  - the AcoustID and MusicBrainz answers, with "the request raised" as `None`;
  - the classifier's inference (torch and transformers, sigmoid and argsort);
  - `os.walk` and `os.stat`, as a list of directories and a `statOf` map;
  - the telnet replies;
  - the Icecast status;
  - the hour of `datetime.now()`.
- The following are not modelled: `time.sleep` pacing, the AcoustID key lookup from the
  environment or a file, `check_dependencies`, `get_remaining`, socket handling and Rich
  rendering. The dependency errors and the key are inputs of `RunPass2` and `RunPass3`.
- Pass1.Decide, Pass2.Decide and Pass3.Decide take the three table lookups (`normalize_tag`,
  `directory_hint`, `discogs_to_knob`) as function parameters. The passes are therefore proved
  for any lookup. `DecideListed` needs the lookups to answer only listed genres, which the
  Taxonomy lemmas prove of the real tables.
- Pass3.MaestClassifier.ClassifyFile: the argsort contract (one probability per label, indices
  ordered by non-increasing probability) is a precondition, not computed.
- Floating point: confidences, scores, probabilities, durations and remaining time are reals,
  with no rounding. `int(seconds)` is the floor, since it is only applied to non-negative values.
- Timestamps (`created_at`, `updated_at`) and the database mechanics are not modelled:
  connections, PRAGMAs, rollback, the schema script and the meta table.
- `count_tracks`, `genre_stats`, `get_tracks_by_genre`, `get_track_by_path`, `get_track_by_id`
  and `close` are not modelled: they are read-only helpers that no modelled code calls.
- Registry.GenreDB.GetTracksNeedingPass and Registry.GenreDB.GetUnclassified return rows in id
  order. The first query has no ORDER BY, so the order is a model choice. The second orders by
  directory and filename, which the model does not reproduce, and only the set of rows is
  specified.
- Python truthiness is reduced to what the inputs can be:
  - a mutagen result is either `None` or a record, which is falsy exactly when it holds no tag key;
  - a missing key in a JSON answer is folded into its default (score 0, count 0, empty name);
  - `telnet_meta` is never an empty map, since `get_telnet_metadata` never returns one.
- NowPlaying.GetNextChange returns `None` where the source returns `(None, None)`.
  `NextChangeExists` proves that this cannot happen within a day, so `format_hour(None)` never
  arises.
- Text.Lower folds only ASCII letters. Text.SplitLines follows Python's line boundaries, but the
  byte decoding of telnet replies (`errors="replace"`) is not modelled.
- The TIME row (`strftime`) and the live-DJ panel of the display are constants or formatting
  only, and are not modelled. The listener counts are carried into the display as numbers,
  defaulting to 0 without an Icecast status; their rendering is not modelled.
- Scanner.ScanRescansChanged, Scanner.ScanAddsNew, Scanner.UpdatedCountsChanged and
  Scanner.NewCountsMissing assume that the walk lists each file once, as `os.walk` does for a
  tree without symbolic-link loops. They state nothing about a walk that lists a path twice.
- Taxonomy.DiscogsToKnob: the value of a single label is proved only for the labels starting
  with 'N' (the Non-Music group, `NonMusicHasNoGenre`) and for "Stage & Screen---Musical"
  (`MusicalIsPop`), not for each of the 280 entries of the table one by one. The general
  first-match lemma `LookupTargetFirst` gives the value of any other label once no earlier key
  equals it.
- The tables' keys are not proved distinct. Lookups take the first pair with a key, which is
  the dictionary's answer when keys are unique, as they are in the source.
- nowplaying_web.py, genre/report.py and genre/__main__.py are not part of this model.
- Verbose progress printing is not modelled.
