// Pass 3: an audio classifier ranks Discogs style labels for the file, and the first of its top
// predictions that the Discogs table maps gives the genre.

module Pass3 {
  import opened Wrappers
  import opened Taxonomy
  import opened Registry
  import opened Passes

  /** How many of the classifier's best labels are considered. */
  const TopK: nat := 5

  /**
   * What the model computes for one file: `audio` is the number of samples loaded (None when
   * loading raised), `probs` the probability of each label and `order` the label indices by
   * decreasing probability, as the tensor library's descending argsort gives them.
   */
  datatype Inference = Inference(audio: Option<nat>, probs: seq<real>, order: seq<int>)

  /**
   * The argsort contract for a model with `labels`: one probability per label, and `order` lists
   * every label index with probabilities never increasing along it.
   */
  predicate Ranked(labels: seq<string>, inf: Inference) {
    && |inf.probs| == |labels| && |inf.order| == |inf.probs|
    && (forall p | 0 <= p < |inf.order| :: 0 <= inf.order[p] < |inf.probs|)
    && (forall i | 0 <= i < |inf.probs| :: i in inf.order)
    && (forall p, q | 0 <= p < q < |inf.order| :: inf.probs[inf.order[q]] <= inf.probs[inf.order[p]])
  }

  /** The argsort contract holds for the inference of every path. */
  ghost predicate AllRanked(labels: seq<string>, inferenceOf: string -> Inference) {
    forall path :: Ranked(labels, inferenceOf(path))
  }

  function Min(a: nat, b: nat): nat {
    if a <= b then a else b
  }

  /**
   * `classify_file`'s answer: nothing when the audio did not load or is empty, else the first
   * `TopK` labels of the ranking with their probabilities (an inference that breaks the argsort
   * contract also gives nothing; the methods below require that it does not happen).
   */
  function TopPredictions(labels: seq<string>, inf: Inference): seq<(string, real)> {
    if inf.audio.None? || inf.audio.value == 0 || !Ranked(labels, inf) then []
    else
      seq(Min(TopK, |inf.order|), k requires 0 <= k < Min(TopK, |inf.order|) =>
        (labels[inf.order[k]], inf.probs[inf.order[k]]))
  }

  /** At most `TopK` pairs, none when the audio failed, and `TopK` when there are enough labels. */
  lemma TopPredictionsSize(labels: seq<string>, inf: Inference)
    requires Ranked(labels, inf)
    ensures |TopPredictions(labels, inf)| <= TopK
    ensures inf.audio.None? || inf.audio.value == 0 ==> TopPredictions(labels, inf) == []
    ensures inf.audio.Some? && inf.audio.value > 0 ==> |TopPredictions(labels, inf)| == Min(TopK, |labels|)
  {
  }

  /** The pairs come best first. */
  lemma TopPredictionsSorted(labels: seq<string>, inf: Inference)
    requires Ranked(labels, inf)
    ensures forall j, k | 0 <= j < k < |TopPredictions(labels, inf)| ::
      TopPredictions(labels, inf)[k].1 <= TopPredictions(labels, inf)[j].1
  {
  }

  /** No label left out has a higher probability than a label kept. */
  lemma TopPredictionsBest(labels: seq<string>, inf: Inference, i: int, k: int)
    requires Ranked(labels, inf)
    requires 0 <= i < |inf.probs| && i !in inf.order[..|TopPredictions(labels, inf)|]
    requires 0 <= k < |TopPredictions(labels, inf)|
    ensures inf.probs[i] <= TopPredictions(labels, inf)[k].1
  {
    var n := |TopPredictions(labels, inf)|;
    assert i in inf.order;
    var p :| 0 <= p < |inf.order| && inf.order[p] == i;
    assert forall q | 0 <= q < n :: inf.order[..n][q] == inf.order[q];
  }

  /** The classifier's answer mapped to the taxonomy: genre, confidence and raw label. */
  datatype KnobMatch = KnobMatch(genre: Option<Genre>, confidence: Option<real>, raw: Option<string>)

  /** Position of the first prediction the Discogs table maps, or the length when none does. */
  function FirstKnob(discogsToKnob: string -> Option<Genre>, preds: seq<(string, real)>): (k: nat)
    ensures k <= |preds|
    ensures forall j | 0 <= j < k :: discogsToKnob(preds[j].0).None?
    ensures k < |preds| ==> discogsToKnob(preds[k].0).Some?
  {
    if preds == [] then 0
    else if discogsToKnob(preds[0].0).Some? then 0
    else 1 + FirstKnob(discogsToKnob, preds[1..])
  }

  /** `classify_to_knob` after the classifier has answered `preds`. */
  function ToKnob(discogsToKnob: string -> Option<Genre>, preds: seq<(string, real)>): KnobMatch {
    if preds == [] then KnobMatch(None, None, None)
    else
      var k := FirstKnob(discogsToKnob, preds);
      if k < |preds| then KnobMatch(discogsToKnob(preds[k].0), Some(preds[k].1), Some("maest:" + preds[k].0))
      else KnobMatch(None, None, Some("maest:" + preds[0].0 + " (unmapped)"))
  }

  /**
   * No predictions: nothing at all. Otherwise the first prediction, in order, that the table
   * maps wins with its probability and label; when none maps, only a raw label naming the top
   * prediction comes back.
   */
  lemma ToKnobCases(discogsToKnob: string -> Option<Genre>, preds: seq<(string, real)>)
    ensures preds == [] ==> ToKnob(discogsToKnob, preds) == KnobMatch(None, None, None)
    ensures ToKnob(discogsToKnob, preds).genre.None?
        <==> forall k | 0 <= k < |preds| :: discogsToKnob(preds[k].0).None?
    ensures ToKnob(discogsToKnob, preds).genre.Some? ==> exists k | 0 <= k < |preds| ::
      && (forall j | 0 <= j < k :: discogsToKnob(preds[j].0).None?)
      && ToKnob(discogsToKnob, preds) == KnobMatch(discogsToKnob(preds[k].0), Some(preds[k].1), Some("maest:" + preds[k].0))
    ensures preds != [] && ToKnob(discogsToKnob, preds).genre.None? ==>
      ToKnob(discogsToKnob, preds) == KnobMatch(None, None, Some("maest:" + preds[0].0 + " (unmapped)"))
  {
    if preds != [] {
      var k := FirstKnob(discogsToKnob, preds);
      if k < |preds| {
        assert discogsToKnob(preds[k].0).Some?;
      }
    }
  }

  /**
   * `MAESTClassifier`: the model's label list is absent until `Load`; classifying needs a
   * loaded model.
   */
  class MaestClassifier {
    var labels: Option<seq<string>>

    constructor()
      ensures labels.None?
    {
      labels := None;
    }

    /** `load`: the model and its label list become available. */
    method Load(modelLabels: seq<string>)
      modifies this
      ensures labels == Some(modelLabels)
    {
      labels := Some(modelLabels);
    }

    /** `classify_file`: the top `TopK` (label, probability) pairs of the inference, best first. */
    method ClassifyFile(inf: Inference) returns (results: seq<(string, real)>)
      requires labels.Some? && Ranked(labels.value, inf)
      ensures results == TopPredictions(labels.value, inf)
    {
      results := [];
      if inf.audio.None? || inf.audio.value == 0 {
        return;
      }
      var topIndices := inf.order[..Min(TopK, |inf.order|)];
      var i := 0;
      while i < |topIndices|
        invariant 0 <= i <= |topIndices|
        invariant |results| == i
        invariant forall k | 0 <= k < i :: results[k] == (labels.value[inf.order[k]], inf.probs[inf.order[k]])
      {
        var idx := topIndices[i];
        results := results + [(labels.value[idx], inf.probs[idx])];
        i := i + 1;
      }
    }

    /** `classify_to_knob`: classify the file, then map the predictions to the taxonomy. */
    method ClassifyToKnob(discogsToKnob: string -> Option<Genre>, inf: Inference) returns (m: KnobMatch)
      requires labels.Some? && Ranked(labels.value, inf)
      ensures m == ToKnob(discogsToKnob, TopPredictions(labels.value, inf))
    {
      var predictions := ClassifyFile(inf);
      m := ToKnob(discogsToKnob, predictions);
    }
  }

  /** The decision of `classify_track`: a mapped genre is stored, anything else only sets the flag. */
  function Decide(discogsToKnob: string -> Option<Genre>, preds: seq<(string, real)>): Outcome {
    var m := ToKnob(discogsToKnob, preds);
    if m.genre.Some? then Outcome(NoFields, Some(Verdict(m.genre.value, "maest", m.confidence.value, m.raw.value)))
    else Outcome(NoFields, None)
  }

  /**
   * Pass 3 writes no extra columns; a stored genre carries source "maest", the winning
   * prediction's probability and its "maest:" label; the unmapped label is never stored.
   */
  lemma DecideCases(discogsToKnob: string -> Option<Genre>, preds: seq<(string, real)>)
    ensures Decide(discogsToKnob, preds).fields == NoFields
    ensures Decide(discogsToKnob, preds).verdict.None? <==> ToKnob(discogsToKnob, preds).genre.None?
    ensures ToKnob(discogsToKnob, preds).genre.None? ==> Decide(discogsToKnob, preds) == Outcome(NoFields, None)
    ensures Decide(discogsToKnob, preds).verdict.Some? ==>
      && Decide(discogsToKnob, preds).verdict.value.source == "maest"
      && Some(Decide(discogsToKnob, preds).verdict.value.confidence) == ToKnob(discogsToKnob, preds).confidence
      && Some(Decide(discogsToKnob, preds).verdict.value.raw) == ToKnob(discogsToKnob, preds).raw
  {
  }

  /** Every genre pass 3 stores names a sub-genre listed under its parent. */
  lemma DecideListed(discogsToKnob: string -> Option<Genre>, preds: seq<(string, real)>)
    requires forall name :: TargetListed(discogsToKnob(name))
    ensures Decide(discogsToKnob, preds).verdict.Some? ==>
      exists g: Genre | Listed(g) :: Decide(discogsToKnob, preds).verdict.value.parent == g.parent.Name()
                                     && Decide(discogsToKnob, preds).verdict.value.sub == g.sub
  {
    var m := ToKnob(discogsToKnob, preds);
    if m.genre.Some? {
      var k := FirstKnob(discogsToKnob, preds);
      assert TargetListed(discogsToKnob(preds[k].0));
      var g := m.genre.value;
      assert Listed(g);
    }
  }

  /** Pass 3's decision for a fetched row, given the model's labels and its inference for each path. */
  function Decider(discogsToKnob: string -> Option<Genre>, modelLabels: seq<string>, inferenceOf: string -> Inference): Track -> Outcome {
    (t: Track) => Decide(discogsToKnob, TopPredictions(modelLabels, inferenceOf(t.path)))
  }

  /**
   * `classify_track` for a fetched row: `update_classification(pass 3, "maest")` without extra
   * columns when a genre maps, else only `mark_pass_done(3)`; the genre group is returned when
   * one was stored.
   */
  method ClassifyTrack(db: GenreDB, discogsToKnob: string -> Option<Genre>, classifier: MaestClassifier,
                       track: (int, Track), inferenceOf: string -> Inference)
    returns (verdict: Option<Classification>)
    requires db.Valid() && track.0 in db.tracks
    requires classifier.labels.Some? && Ranked(classifier.labels.value, inferenceOf(track.1.path))
    modifies db
    ensures db.Valid()
    ensures verdict == Decider(discogsToKnob, classifier.labels.value, inferenceOf)(track.1).verdict
    ensures db.tracks == StepTracks(old(db.tracks), track, Decider(discogsToKnob, classifier.labels.value, inferenceOf), 3)
    ensures db.log == old(db.log) + Logged(track.0, Decider(discogsToKnob, classifier.labels.value, inferenceOf)(track.1), 3)
    ensures db.pathIndex == old(db.pathIndex) && db.nextId == old(db.nextId)
  {
    var m := classifier.ClassifyToKnob(discogsToKnob, inferenceOf(track.1.path));
    verdict := None;
    if m.genre.Some? {
      verdict := Some(Verdict(m.genre.value, "maest", m.confidence.value, m.raw.value));
    }
    WriteVerdictThenFields(db, track.0, Outcome(NoFields, verdict), 3);
  }

  /** One turn of the loop of `run_pass3`: the next fetched row is classified and counted, extending the batch. */
  method ClassifyNext(db: GenreDB, discogsToKnob: string -> Option<Genre>, classifier: MaestClassifier,
                      rows: seq<(int, Track)>, i: nat, inferenceOf: string -> Inference,
                      classified: nat, skipped: nat, ghost tracks0: map<int, Track>, ghost log0: seq<LogEntry>)
    returns (classified': nat, skipped': nat)
    requires db.Valid() && Fetched(tracks0, rows) && i < |rows|
    requires classifier.labels.Some? && AllRanked(classifier.labels.value, inferenceOf)
    requires db.tracks == BatchTracks(tracks0, rows[..i], Decider(discogsToKnob, classifier.labels.value, inferenceOf), 3)
    requires db.log == BatchLog(log0, rows[..i], Decider(discogsToKnob, classifier.labels.value, inferenceOf), 3)
    requires classified == CountVerdicts(rows[..i], Decider(discogsToKnob, classifier.labels.value, inferenceOf)) && classified + skipped == i
    modifies db
    ensures db.Valid()
    ensures db.pathIndex == old(db.pathIndex) && db.nextId == old(db.nextId)
    ensures db.tracks == BatchTracks(tracks0, rows[..i + 1], Decider(discogsToKnob, classifier.labels.value, inferenceOf), 3)
    ensures db.log == BatchLog(log0, rows[..i + 1], Decider(discogsToKnob, classifier.labels.value, inferenceOf), 3)
    ensures classified' == CountVerdicts(rows[..i + 1], Decider(discogsToKnob, classifier.labels.value, inferenceOf)) && classified' + skipped' == i + 1
  {
    ghost var decide := Decider(discogsToKnob, classifier.labels.value, inferenceOf);
    BatchStep(tracks0, log0, rows, i, decide, 3);
    BatchMonotone(tracks0, rows[..i], decide, 3);
    CountStep(rows, i, decide);
    var verdict := ClassifyTrack(db, discogsToKnob, classifier, rows[i], inferenceOf);
    classified', skipped' := classified, skipped;
    if verdict.Some? {
      classified' := classified + 1;
    } else {
      skipped' := skipped + 1;
    }
  }

  /** The loop of `run_pass3` over the rows still without a genre, counting the outcomes. */
  method ClassifyRows(db: GenreDB, discogsToKnob: string -> Option<Genre>, classifier: MaestClassifier,
                      rows: seq<(int, Track)>, inferenceOf: string -> Inference)
    returns (classified: nat, skipped: nat)
    requires db.Valid() && Fetched(db.tracks, rows)
    requires classifier.labels.Some? && AllRanked(classifier.labels.value, inferenceOf)
    modifies db
    ensures db.Valid()
    ensures db.pathIndex == old(db.pathIndex) && db.nextId == old(db.nextId)
    ensures db.tracks == BatchTracks(old(db.tracks), rows, Decider(discogsToKnob, classifier.labels.value, inferenceOf), 3)
    ensures db.log == BatchLog(old(db.log), rows, Decider(discogsToKnob, classifier.labels.value, inferenceOf), 3)
    ensures classified == CountVerdicts(rows, Decider(discogsToKnob, classifier.labels.value, inferenceOf))
    ensures classified + skipped == |rows|
  {
    classified, skipped := 0, 0;
    var i := 0;
    while i < |rows|
      invariant 0 <= i <= |rows|
      invariant db.Valid()
      invariant db.pathIndex == old(db.pathIndex) && db.nextId == old(db.nextId)
      invariant db.tracks == BatchTracks(old(db.tracks), rows[..i], Decider(discogsToKnob, classifier.labels.value, inferenceOf), 3)
      invariant db.log == BatchLog(old(db.log), rows[..i], Decider(discogsToKnob, classifier.labels.value, inferenceOf), 3)
      invariant classified == CountVerdicts(rows[..i], Decider(discogsToKnob, classifier.labels.value, inferenceOf)) && classified + skipped == i
    {
      classified, skipped := ClassifyNext(db, discogsToKnob, classifier, rows, i, inferenceOf, classified, skipped, old(db.tracks), old(db.log));
      i := i + 1;
    }
    assert rows[..i] == rows;
  }

  /**
   * `run_pass3`: with a dependency error nothing is touched; otherwise every fetched song whose
   * genre is still empty (all of them when there is no limit) is handled once, in id order, and
   * counted; the model is loaded once, and only when there is something to classify.
   */
  method RunPass3(db: GenreDB, discogsToKnob: string -> Option<Genre>, errors: seq<string>, limit: Option<int>,
                  modelLabels: seq<string>, inferenceOf: string -> Inference)
    returns (classified: nat, skipped: nat, ghost processed: seq<(int, Track)>, ghost loaded: bool)
    requires db.Valid()
    requires AllRanked(modelLabels, inferenceOf)
    modifies db
    ensures db.Valid()
    ensures db.pathIndex == old(db.pathIndex) && db.nextId == old(db.nextId)
    ensures |errors| > 0 ==> processed == [] && db.tracks == old(db.tracks) && db.log == old(db.log)
    ensures loaded <==> processed != []
    ensures Fetched(old(db.tracks), processed)
    ensures RowIds(processed) <= PendingIds(old(db.tracks), 3)
    ensures |errors| == 0 && Unlimited(limit) ==> RowIds(processed) == PendingIds(old(db.tracks), 3)
    ensures !Unlimited(limit) ==> |processed| <= limit.value
    ensures db.tracks == BatchTracks(old(db.tracks), processed, Decider(discogsToKnob, modelLabels, inferenceOf), 3)
    ensures db.log == BatchLog(old(db.log), processed, Decider(discogsToKnob, modelLabels, inferenceOf), 3)
    ensures classified == CountVerdicts(processed, Decider(discogsToKnob, modelLabels, inferenceOf))
    ensures classified + skipped == |processed|
  {
    processed, loaded := [], false;
    if |errors| > 0 {
      classified, skipped := 0, 0;
      return;
    }
    var fetched := db.GetTracksNeedingPass(3, "song", limit);
    var rows := WithoutGenre(fetched);
    WithoutGenreFetched(db.tracks, fetched);
    PendingFromFetched(db.tracks, fetched, rows, 3);
    processed := rows;
    if |rows| == 0 {
      classified, skipped := 0, 0;
      return;
    }
    var classifier := new MaestClassifier();
    classifier.Load(modelLabels);
    loaded := true;
    classified, skipped := ClassifyRows(db, discogsToKnob, classifier, rows, inferenceOf);
  }
}
