/**
 * The now-playing display's logic: which source the hour schedule names, when it next
 * changes, the "M:SS" and 12-hour formatters, the `key=value` metadata parser, the cleanup of
 * Liquidsoap telnet replies, the choice of the latest metadata block, and how the display
 * merges telnet and Icecast data and names the source.
 */
module NowPlaying {
  import opened Wrappers
  import opened Text

  // ---------------------------------------------------------------- schedule

  /** One schedule row: the hours [start, end), wrapping past midnight when start >= end. */
  datatype Slot = Slot(start: int, end: int, name: string, fmt: string)

  /** The station schedule, first match wins; the last row covers the whole day. */
  const Schedule: seq<Slot> := [
    Slot(22, 2, "Noisefloor", "random"),
    Slot(10, 11, "Pandora's Box", "show"),
    Slot(17, 18, "Pandora's Box", "show"),
    Slot(0, 24, "AUTODJ", "show")
  ]

  predicate Covers(s: Slot, hour: int) {
    if s.start < s.end then s.start <= hour < s.end else hour >= s.start || hour < s.end
  }

  /** The position of the first row covering the hour. */
  function FirstCovering(slots: seq<Slot>, hour: int): (r: Option<nat>)
    ensures r.Some? ==> r.value < |slots| && Covers(slots[r.value], hour)
    ensures r.Some? ==> forall j | 0 <= j < r.value :: !Covers(slots[j], hour)
    ensures r.None? ==> forall j | 0 <= j < |slots| :: !Covers(slots[j], hour)
  {
    if slots == [] then None
    else if Covers(slots[0], hour) then Some(0)
    else
      match FirstCovering(slots[1..], hour)
      case None => None
      case Some(i) => Some(i + 1)
  }

  /** `get_scheduled_source`: the name and format of the first covering row, else AUTODJ. */
  function GetScheduledSource(hour: int): (r: (string, string)) {
    match FirstCovering(Schedule, hour)
    case Some(i) => (Schedule[i].name, Schedule[i].fmt)
    case None => ("AUTODJ", "show")
  }

  /** The schedule written out hour by hour. */
  function ScheduledName(hour: int): string {
    if hour >= 22 || hour < 2 then "Noisefloor"
    else if hour == 10 || hour == 17 then "Pandora's Box"
    else "AUTODJ"
  }

  /**
   * Noisefloor runs from 22:00 to 02:00 across midnight in the random format, Pandora's Box
   * holds 10:00 and 17:00, AUTODJ every other hour; the fallback is never needed in a day.
   */
  lemma ScheduleByHour(hour: int)
    requires 0 <= hour < 24
    ensures FirstCovering(Schedule, hour).Some?
    ensures GetScheduledSource(hour).0 == ScheduledName(hour)
    ensures GetScheduledSource(hour).1 == (if ScheduledName(hour) == "Noisefloor" then "random" else "show")
  {
    assert Covers(Schedule[3], hour);
    if hour >= 22 || hour < 2 {
      assert Covers(Schedule[0], hour);
    } else if hour == 10 {
      assert !Covers(Schedule[0], hour) && Covers(Schedule[1], hour);
    } else if hour == 17 {
      assert !Covers(Schedule[0], hour) && !Covers(Schedule[1], hour) && Covers(Schedule[2], hour);
    } else {
      assert !Covers(Schedule[0], hour) && !Covers(Schedule[1], hour) && !Covers(Schedule[2], hour);
    }
  }

  /** The name of the source scheduled at an hour. */
  function SourceAt(hour: int): string {
    GetScheduledSource(hour).0
  }

  /**
   * The search of `get_next_change` from offset `h` on, with `source` naming each hour's source:
   * the first later hour with a source other than `current`.
   */
  function NextChangeFrom(hour: int, current: string, h: int, source: int -> string): (r: Option<(int, string)>)
    requires 1 <= h <= 25
    decreases 25 - h
  {
    if h > 24 then None
    else
      var check := (hour + h) % 24;
      if source(check) != current then Some((check, source(check)))
      else NextChangeFrom(hour, current, h + 1, source)
  }

  /** `get_next_change`: the next hour whose source differs from the current one, with that source. */
  function GetNextChange(hour: int): Option<(int, string)> {
    NextChangeFrom(hour, SourceAt(hour), 1, SourceAt)
  }

  /** The offset `k` from `hour` brings another source. */
  predicate ChangesAt(hour: int, current: string, k: int, source: int -> string) {
    source((hour + k) % 24) != current
  }

  /** The search finds the least offset that changes the source, and finds one whenever there is one. */
  lemma {:induction false} NextChangeFromFirst(hour: int, current: string, h: int, source: int -> string)
    requires 1 <= h <= 25
    ensures NextChangeFrom(hour, current, h, source).Some? <==> exists k | h <= k <= 24 :: ChangesAt(hour, current, k, source)
    ensures NextChangeFrom(hour, current, h, source).Some? ==>
      exists k | h <= k <= 24 ::
        && ChangesAt(hour, current, k, source)
        && (forall j | h <= j < k :: !ChangesAt(hour, current, j, source))
        && NextChangeFrom(hour, current, h, source).value == ((hour + k) % 24, source((hour + k) % 24))
    decreases 25 - h
  {
    if h <= 24 && !ChangesAt(hour, current, h, source) {
      NextChangeFromFirst(hour, current, h + 1, source);
      if NextChangeFrom(hour, current, h, source).Some? {
        var k :| h + 1 <= k <= 24 && ChangesAt(hour, current, k, source)
          && (forall j | h + 1 <= j < k :: !ChangesAt(hour, current, j, source))
          && NextChangeFrom(hour, current, h, source).value == ((hour + k) % 24, source((hour + k) % 24));
        assert forall j | h <= j < k :: !ChangesAt(hour, current, j, source);
      }
    }
  }

  /** The next change names a source other than the current one, at the earliest such hour. */
  lemma NextChangeDiffers(hour: int)
    ensures GetNextChange(hour).Some? ==>
      && GetNextChange(hour).value.1 != SourceAt(hour)
      && GetNextChange(hour).value.1 == SourceAt(GetNextChange(hour).value.0)
      && 0 <= GetNextChange(hour).value.0 < 24
  {
    NextChangeFromFirst(hour, SourceAt(hour), 1, SourceAt);
  }

  /** Within a day some later hour always brings another source, so the search never comes back empty. */
  lemma NextChangeExists(hour: int)
    requires 0 <= hour < 24
    ensures GetNextChange(hour).Some?
  {
    var k := ChangeWithinDay(hour);
    NextChangeFromFirst(hour, SourceAt(hour), 1, SourceAt);
  }

  /** An offset within a day at which the source differs: 22:00 after AUTODJ, 3:00 after a show. */
  lemma ChangeWithinDay(hour: int) returns (k: int)
    requires 0 <= hour < 24
    ensures 1 <= k <= 24 && ChangesAt(hour, SourceAt(hour), k, SourceAt)
  {
    if SourceAt(hour) == "AUTODJ" {
      ScheduleByHour(22);
      k := if hour < 22 then 22 - hour else 46 - hour;
      assert (hour + k) % 24 == 22;
    } else {
      ScheduleByHour(3);
      k := if hour < 3 then 3 - hour else 27 - hour;
      assert (hour + k) % 24 == 3;
    }
  }

  /** From 22:00 the schedule next changes at 2am to AUTODJ; from 9:00, at 10am to Pandora's Box. */
  lemma NextChangeExamples()
    ensures GetNextChange(22) == Some((2, "AUTODJ"))
    ensures GetNextChange(9) == Some((10, "Pandora's Box"))
  {
    ScheduleByHour(22);
    ScheduleByHour(23);
    ScheduleByHour(0);
    ScheduleByHour(1);
    ScheduleByHour(2);
    ScheduleByHour(9);
    ScheduleByHour(10);
  }

  // ---------------------------------------------------------------- formatting

  /** Two zero-padded decimal digits, `f"{s:02d}"` for s < 100. */
  function Pad2(s: nat): (r: string)
    requires s < 100
    ensures |r| == 2 && '0' <= r[0] <= '9' && '0' <= r[1] <= '9'
    ensures DigitsValue(r) == s
  {
    var r := [DigitChar(s / 10), DigitChar(s % 10)];
    assert r[..1] == [DigitChar(s / 10)] && r[..1][..0] == [];
    assert DigitsValue(r[..1]) == s / 10;
    assert DigitsValue(r) == 10 * (s / 10) + s % 10;
    r
  }

  /** `format_duration`: "M:SS" from the whole seconds, "--:--" when unknown or negative. */
  function FormatDuration(seconds: Option<real>): string {
    if seconds.None? || seconds.value < 0.0 then "--:--"
    else MinSec(seconds.value.Floor)
  }

  /** Whole seconds as minutes, ":" and two digits of seconds. */
  function MinSec(t: nat): string {
    NatToString(t / 60) + ":" + Pad2(t % 60)
  }

  predicate AllDigits(s: string) {
    forall k | 0 <= k < |s| :: '0' <= s[k] <= '9'
  }

  /** Reading "M:SS" back gives the whole seconds: minutes times sixty plus seconds under sixty. */
  lemma FormatDurationReadsBack(x: real)
    requires x >= 0.0
    ensures var r := FormatDuration(Some(x)); var i := |r| - 3;
      && 1 <= i && r[i] == ':' && AllDigits(r[..i]) && AllDigits(r[i + 1..])
      && DigitsValue(r[i + 1..]) < 60
      && 60 * DigitsValue(r[..i]) + DigitsValue(r[i + 1..]) == x.Floor
  {
    MinSecReadsBack(x.Floor);
  }

  /** The minutes and seconds of `MinSec(t)` read back to `t`, with fewer than sixty seconds. */
  lemma MinSecReadsBack(t: nat)
    ensures var r := MinSec(t); var i := |r| - 3;
      && 1 <= i && r[i] == ':' && AllDigits(r[..i]) && AllDigits(r[i + 1..])
      && DigitsValue(r[i + 1..]) < 60
      && 60 * DigitsValue(r[..i]) + DigitsValue(r[i + 1..]) == t
  {
    var m := NatToString(t / 60);
    var p := Pad2(t % 60);
    var r := MinSec(t);
    assert r == m + ":" + p;
    var i := |r| - 3;
    assert i == |m|;
    assert r[..i] == m;
    assert r[i + 1..] == p;
    NatToStringRoundTrip(t / 60);
  }

  /** 125 seconds read "2:05"; a negative time reads "--:--". */
  lemma FormatDurationExamples()
    ensures FormatDuration(Some(125.0)) == "2:05"
    ensures FormatDuration(Some(-1.0)) == "--:--"
    ensures FormatDuration(None) == "--:--"
  {
    assert (125.0).Floor == 125;
    assert Pad2(5) == "05";
  }

  /** `format_hour`: midnight (0 or 24) is "12am", noon "12pm", then "<h>am" or "<h-12>pm". */
  function FormatHour(h: int): string {
    if h == 0 || h == 24 then "12am"
    else if h == 12 then "12pm"
    else if h < 12 then IntToString(h) + "am"
    else IntToString(h - 12) + "pm"
  }

  /** The hour on a 12-hour clock. */
  function Clock12(h: int): int {
    if h % 12 == 0 then 12 else h % 12
  }

  /** Within a day, the 12-hour clock reading with "am" before noon and at the closing midnight. */
  lemma FormatHourClock(h: int)
    requires 0 <= h <= 24
    ensures 1 <= Clock12(h) <= 12
    ensures FormatHour(h) == NatToString(Clock12(h)) + (if h < 12 || h == 24 then "am" else "pm")
  {
    if h == 0 || h == 24 {
      assert NatToString(12) == NatToString(1) + [DigitChar(2)];
      assert NatToString(12) == "12";
    } else if h == 12 {
      assert NatToString(12) == "12";
    } else if h > 12 {
      assert Clock12(h) == h - 12;
    }
  }

  // ---------------------------------------------------------------- key=value blocks

  /** The key of a `key=value` line: the text before the first "=", stripped. */
  function KeyOf(line: string): (k: string)
    requires '=' in line
  {
    FirstIndexFound(line, '=');
    Strip(line[..FirstIndex(line, '=')])
  }

  /** The value of a `key=value` line: the rest after the first "=", stripped, then unquoted. */
  function ValueOf(line: string): string
    requires '=' in line
  {
    FirstIndexFound(line, '=');
    Unquote(Strip(line[FirstIndex(line, '=') + 1..]))
  }

  /** `s.strip('"')`: the text without the double quotes around it. */
  function Unquote(s: string): (v: string)
    ensures v != [] ==> v[0] != '"' && v[|v| - 1] != '"'
  {
    StripSet(s, {'"'})
  }

  /** A line's `(key, value)`, or None when it has no "=". */
  function ParseLine(line: string): Option<(string, string)> {
    if '=' in line then Some((KeyOf(line), ValueOf(line))) else None
  }

  /** The dictionary built from the lines' entries, in order: later keys win. */
  function Entries(lines: seq<string>, parse: string -> Option<(string, string)>): map<string, string> {
    if lines == [] then map[]
    else
      var e := parse(lines[|lines| - 1]);
      var before := Entries(lines[..|lines| - 1], parse);
      if e.Some? then before[e.value.0 := e.value.1] else before
  }

  /** The dictionary the lines describe: lines without "=" are ignored, later keys win. */
  function MetaOf(lines: seq<string>): map<string, string> {
    Entries(lines, ParseLine)
  }

  /** Line `i` yields an entry for key `k`. */
  predicate Sets(lines: seq<string>, parse: string -> Option<(string, string)>, i: int, k: string) {
    0 <= i < |lines| && parse(lines[i]).Some? && parse(lines[i]).value.0 == k
  }

  /** A key is present exactly when some line names it. */
  lemma {:induction false} EntriesKeys(lines: seq<string>, parse: string -> Option<(string, string)>, k: string)
    ensures k in Entries(lines, parse) <==> exists i :: Sets(lines, parse, i, k)
  {
    if lines != [] {
      var pre := lines[..|lines| - 1];
      var last := |lines| - 1;
      EntriesKeys(pre, parse, k);
      assert forall i | 0 <= i < |pre| :: pre[i] == lines[i];
      assert forall i | 0 <= i < |pre| :: Sets(pre, parse, i, k) == Sets(lines, parse, i, k);
      if Sets(lines, parse, last, k) {
        assert k in Entries(lines, parse);
      } else {
        var e := parse(lines[last]);
        assert Entries(lines, parse) == if e.Some? then Entries(pre, parse)[e.value.0 := e.value.1] else Entries(pre, parse);
        assert k in Entries(lines, parse) <==> k in Entries(pre, parse);
        if exists i :: Sets(lines, parse, i, k) {
          var i :| Sets(lines, parse, i, k);
          assert Sets(pre, parse, i, k);
        }
      }
    }
  }

  /** The value of a key is the one its last line gives. */
  lemma {:induction false} EntriesLastWins(lines: seq<string>, parse: string -> Option<(string, string)>, i: int)
    requires 0 <= i < |lines| && parse(lines[i]).Some?
    requires forall j | i < j < |lines| :: !Sets(lines, parse, j, parse(lines[i]).value.0)
    ensures parse(lines[i]).value.0 in Entries(lines, parse)
    ensures Entries(lines, parse)[parse(lines[i]).value.0] == parse(lines[i]).value.1
  {
    if i < |lines| - 1 {
      var pre := lines[..|lines| - 1];
      var k := parse(lines[i]).value.0;
      assert pre[i] == lines[i];
      forall j | i < j < |pre| ensures !Sets(pre, parse, j, k) {
        assert pre[j] == lines[j];
        assert !Sets(lines, parse, j, k);
      }
      EntriesLastWins(pre, parse, i);
      assert !Sets(lines, parse, |lines| - 1, k);
    }
  }

  /**
   * The parsed block holds the key of a line with "=", with the value of the last line naming
   * that key: stripped, without surrounding quotes.
   */
  lemma MetaOfLastWins(lines: seq<string>, i: int)
    requires 0 <= i < |lines| && '=' in lines[i]
    requires forall j | i < j < |lines| && '=' in lines[j] :: KeyOf(lines[j]) != KeyOf(lines[i])
    ensures KeyOf(lines[i]) in MetaOf(lines)
    ensures MetaOf(lines)[KeyOf(lines[i])] == ValueOf(lines[i])
  {
    EntriesLastWins(lines, ParseLine, i);
  }

  /** Only lines with "=" contribute keys. */
  lemma MetaOfKeys(lines: seq<string>, k: string)
    ensures k in MetaOf(lines) <==> exists i | 0 <= i < |lines| :: '=' in lines[i] && KeyOf(lines[i]) == k
  {
    EntriesKeys(lines, ParseLine, k);
    assert forall i | 0 <= i < |lines| :: Sets(lines, ParseLine, i, k) <==> '=' in lines[i] && KeyOf(lines[i]) == k;
  }

  /** `parse_meta_block`: fill the dictionary line by line. */
  method ParseMetaBlock(text: string) returns (meta: map<string, string>)
    ensures meta == MetaOf(SplitLines(text))
  {
    var lines := SplitLines(text);
    meta := map[];
    var i := 0;
    while i < |lines|
      invariant 0 <= i <= |lines|
      invariant meta == MetaOf(lines[..i])
    {
      var line := lines[i];
      assert lines[..i + 1][..i] == lines[..i];
      var entry := ParseLine(line);
      if entry.Some? {
        meta := meta[entry.value.0 := entry.value.1];
      }
      i := i + 1;
    }
    assert lines[..|lines|] == lines;
  }

  // ---------------------------------------------------------------- telnet replies

  /** A line the Liquidsoap telnet server appends: the reply's "END" or the "Bye!" of `quit`. */
  predicate IsTrailer(line: string) {
    Strip(line) == "END" || Strip(line) == "Bye!"
  }

  /** The lines left once the trailing lines `isTrailer` accepts are popped. */
  function KeptLines(lines: seq<string>, isTrailer: string -> bool): seq<string> {
    if lines != [] && isTrailer(lines[|lines| - 1]) then KeptLines(lines[..|lines| - 1], isTrailer) else lines
  }

  /** Only a run of trailer lines at the end is removed; the lines before stay, in order. */
  lemma {:induction false} KeptLinesSpec(lines: seq<string>, isTrailer: string -> bool)
    ensures KeptLines(lines, isTrailer) <= lines
    ensures forall i | |KeptLines(lines, isTrailer)| <= i < |lines| :: isTrailer(lines[i])
    ensures KeptLines(lines, isTrailer) == [] || !isTrailer(KeptLines(lines, isTrailer)[|KeptLines(lines, isTrailer)| - 1])
  {
    if lines != [] && isTrailer(lines[|lines| - 1]) {
      var pre := lines[..|lines| - 1];
      KeptLinesSpec(pre, isTrailer);
      assert forall i | |KeptLines(lines, isTrailer)| <= i < |pre| :: lines[i] == pre[i];
    }
  }

  /** The `while` loop of `telnet_command` that pops trailer lines. */
  method StripTrailers(lines: seq<string>) returns (kept: seq<string>)
    ensures kept == KeptLines(lines, IsTrailer)
  {
    kept := lines;
    while kept != [] && IsTrailer(kept[|kept| - 1])
      invariant KeptLines(kept, IsTrailer) == KeptLines(lines, IsTrailer)
      decreases |kept|
    {
      kept := kept[..|kept| - 1];
    }
  }

  /** The cleanup of a telnet reply: strip, drop trailer lines, rejoin and strip again. */
  method CleanReply(raw: string) returns (text: string)
    ensures text == Strip(Join(KeptLines(SplitLines(Strip(raw)), IsTrailer), "\n"))
  {
    var lines := SplitLines(Strip(raw));
    lines := StripTrailers(lines);
    text := Strip(Join(lines, "\n"));
  }

  /** The request fields that replace those of the metadata block. */
  const OverrideKeys: set<string> := {"filename", "initial_uri"}

  /** `a` overlaid with the override keys `b` holds. */
  function Overlay(a: map<string, string>, b: map<string, string>): (r: map<string, string>)
    ensures r.Keys == a.Keys + (b.Keys * OverrideKeys)
    ensures forall k | k in b && k in OverrideKeys :: r[k] == b[k]
    ensures forall k | k in a && k !in OverrideKeys * b.Keys :: r[k] == a[k]
  {
    a + map k | k in b.Keys * OverrideKeys :: b[k]
  }

  /** The request metadata, when `request.on_air` and `request.metadata` both answer. */
  function RequestMeta(onAir: Option<string>, requestMetadata: string -> Option<string>): Option<map<string, string>> {
    if onAir.None? || onAir.value == [] then None
    else
      var reply := requestMetadata(Strip(onAir.value));
      if reply.None? || reply.value == [] then None
      else Some(MetaOf(SplitLines(reply.value)))
  }

  /** Copy the override keys the request metadata holds over the block's. */
  method CopyOverrides(m: map<string, string>, req: map<string, string>) returns (r: map<string, string>)
    ensures r == Overlay(m, req)
  {
    r := m;
    if "filename" in req {
      r := r["filename" := req["filename"]];
    }
    if "initial_uri" in req {
      r := r["initial_uri" := req["initial_uri"]];
    }
  }

  /** The part of `get_telnet_metadata` that asks which request is on air and copies its file fields. */
  method ApplyRequest(m: map<string, string>, onAir: Option<string>, requestMetadata: string -> Option<string>)
    returns (r: map<string, string>)
    ensures r == if RequestMeta(onAir, requestMetadata).Some? then Overlay(m, RequestMeta(onAir, requestMetadata).value) else m
  {
    r := m;
    if onAir.Some? && onAir.value != [] {
      var rid := Strip(onAir.value);
      var reqReply := requestMetadata(rid);
      if reqReply.Some? && reqReply.value != [] {
        var req := ParseMetaBlock(reqReply.value);
        r := CopyOverrides(m, req);
      }
    }
  }

  /** The last "--- " block of a metadata reply, or None when the reply is empty or has no block marker. */
  function LatestBlock(reply: Option<string>): (b: Option<string>)
    ensures b.Some? ==> !Contains(b.value, "--- ")
    ensures b.Some? <==> reply.Some? && reply.value != [] && Contains(reply.value, "--- ")
  {
    if reply.None? || reply.value == [] then None
    else LastPiece(SplitOn(reply.value, "--- "))
  }

  /** The last of at least two pieces. */
  function LastPiece(blocks: seq<string>): (b: Option<string>)
    ensures b.Some? <==> |blocks| >= 2
    ensures b.Some? ==> b.value == blocks[|blocks| - 1]
  {
    if |blocks| < 2 then None else Some(blocks[|blocks| - 1])
  }

  /**
   * What `get_telnet_metadata` answers: the latest block's dictionary with the on-air request's
   * file fields copied over it, None when there is no block or the result is empty.
   */
  function TelnetMeta(reply: Option<string>, onAir: Option<string>, requestMetadata: string -> Option<string>): (r: Option<map<string, string>>)
    ensures r.Some? ==> r.value != map[]
    ensures LatestBlock(reply).None? ==> r.None?
  {
    match LatestBlock(reply)
    case None => None
    case Some(block) =>
      var base := MetaOf(SplitLines(block));
      var merged := if RequestMeta(onAir, requestMetadata).Some? then Overlay(base, RequestMeta(onAir, requestMetadata).value) else base;
      if merged == map[] then None else Some(merged)
  }

  /**
   * `get_telnet_metadata`: parse the last "--- " block of the metadata reply, let the playing
   * request's filename and initial_uri override it, and answer None for an empty result.
   */
  method GetTelnetMetadata(reply: Option<string>, onAir: Option<string>, requestMetadata: string -> Option<string>)
    returns (meta: Option<map<string, string>>)
    ensures meta == TelnetMeta(reply, onAir, requestMetadata)
  {
    var block := LatestBlock(reply);
    if block.None? {
      return None;
    }
    var m := ParseMetaBlock(block.value);
    m := ApplyRequest(m, onAir, requestMetadata);
    meta := if m == map[] then None else Some(m);
  }

  /** A reply ending in a block marker followed by `latest` is answered from `latest` alone. */
  lemma TelnetMetaUsesLatest(older: string, latest: string, onAir: Option<string>, requestMetadata: string -> Option<string>)
    requires !Contains(latest, "--- ")
    ensures LatestBlock(Some(older + "--- " + latest)) == Some(latest)
    ensures TelnetMeta(Some(older + "--- " + latest), onAir, requestMetadata) ==
      TelnetMeta(Some("--- " + latest), onAir, requestMetadata)
  {
    LatestBlockAfterMarker(older, latest);
    LatestBlockAfterMarker([], latest);
    assert [] + "--- " + latest == "--- " + latest;
    SameBlockSameMeta(Some(older + "--- " + latest), Some("--- " + latest), onAir, requestMetadata);
  }

  /** The answer depends on the reply only through its latest block. */
  lemma SameBlockSameMeta(a: Option<string>, b: Option<string>, onAir: Option<string>, requestMetadata: string -> Option<string>)
    requires LatestBlock(a) == LatestBlock(b)
    ensures TelnetMeta(a, onAir, requestMetadata) == TelnetMeta(b, onAir, requestMetadata)
  {
  }

  /** The latest block of `older + "--- " + latest` is `latest`. */
  lemma LatestBlockAfterMarker(older: string, latest: string)
    requires !Contains(latest, "--- ")
    ensures LatestBlock(Some(older + "--- " + latest)) == Some(latest)
  {
    var s := older + "--- " + latest;
    JoinedAt(older, "--- ", latest);
    assert MarkerThen(s, |older|, latest);
    MarkerBefore(s, |older|);
    AfterMarker(s, |older|, latest);
    LatestBlockIsAfterLast(s);
  }

  /** The latest block of a reply with a marker is what follows its last marker. */
  lemma LatestBlockIsAfterLast(s: string)
    requires Find(s, "--- ") >= 0
    ensures LatestBlock(Some(s)) == Some(AfterLast(s, "--- "))
  {
    SplitOnLastIsAfterLast(s, "--- ");
    LatestBlockIsLast(s);
  }

  lemma LatestBlockIsLast(s: string)
    requires s != [] && |SplitOn(s, "--- ")| >= 2
    ensures LatestBlock(Some(s)) == Some(SplitOn(s, "--- ")[|SplitOn(s, "--- ")| - 1])
  {
    var blocks := SplitOn(s, "--- ");
    assert LatestBlock(Some(s)) == LastPiece(blocks);
  }

  /** The first block marker of `s` is the one at `k` or lies wholly before it. */
  lemma MarkerBefore(s: string, k: int)
    requires 0 <= k && k + 4 <= |s| && s[k..k + 4] == "--- "
    ensures 0 <= Find(s, "--- ") && (Find(s, "--- ") == k || Find(s, "--- ") + 4 <= k)
  {
    var sep := "--- ";
    assert OccursAt(sep, s, k);
    forall j | k - 3 <= j < k && 0 <= j ensures !OccursAt(sep, s, j) {
      assert s[j + 3] == s[k..k + 4][j + 3 - k] == '-';
      assert s[j..j + 4][3] == s[j + 3];
    }
  }

  /** In `a + sep + b`, `sep` sits at `|a|` and `b` follows it. */
  lemma JoinedAt(a: string, sep: string, b: string)
    ensures (a + sep + b)[|a|..|a| + |sep|] == sep && (a + sep + b)[|a| + |sep|..] == b
  {
  }

  /** `s` holds a block marker at `k` followed by `latest` alone. */
  predicate MarkerThen(s: string, k: int, latest: string) {
    0 <= k && k + 4 <= |s| && s[k..k + 4] == "--- " && s[k + 4..] == latest
  }

  /** What follows the last marker of a string whose marker at `k` is followed by `latest` alone is `latest`. */
  lemma {:induction false} AfterMarker(s: string, k: int, latest: string)
    requires MarkerThen(s, k, latest) && !Contains(latest, "--- ")
    ensures AfterLast(s, "--- ") == latest
    decreases k
  {
    MarkerBefore(s, k);
    var i := Find(s, "--- ");
    if i == k {
      assert Find(latest, "--- ") < 0;
    } else {
      MarkerInRest(s, i, k, latest);
      AfterMarker(s[i + 4..], k - i - 4, latest);
    }
  }

  lemma MarkerInRest(s: string, i: int, k: int, latest: string)
    requires MarkerThen(s, k, latest) && 0 <= i && i + 4 <= k
    ensures MarkerThen(s[i + 4..], k - i - 4, latest)
  {
    assert s[i + 4..][k - i - 4..k - i] == s[k..k + 4];
    assert s[i + 4..][k - i..] == s[k + 4..];
  }

  // ---------------------------------------------------------------- display

  /** The Icecast status fields the display reads. */
  datatype Icecast = Icecast(artist: string, title: string, listeners: int, listenerPeak: int)

  /** What the display shows; the schedule row's format is computed by the source but never shown, so it is left out. */
  datatype Display = Display(
    track: string,
    remaining: string,
    source: string,
    scheduled: string,
    scheduleLine: string,
    upNext: string,
    listeners: int,
    peak: int)

  /** `d.get(k, "")`. */
  function Get(m: map<string, string>, k: string): string {
    if k in m then m[k] else ""
  }

  /** Python's `os.path.basename`: what follows the last "/". */
  function Basename(path: string): (b: string)
    ensures '/' !in b
    ensures |b| <= |path| && b == path[|path| - |b|..]
  {
    path[LastIndex(path, '/') + 1..]
  }

  /** The artist and title: telnet first, each empty one filled from Icecast unless both were set. */
  function MergeTrack(icecast: Option<Icecast>, telnetMeta: Option<map<string, string>>): (r: (string, string)) {
    var artist := if telnetMeta.Some? then Get(telnetMeta.value, "artist") else "";
    var title := if telnetMeta.Some? then Get(telnetMeta.value, "title") else "";
    if icecast.Some? && !(artist != [] && title != []) then
      (if artist != [] then artist else icecast.value.artist, if title != [] then title else icecast.value.title)
    else (artist, title)
  }

  /** The filename telnet reports, or empty. */
  function FilenameOf(telnetMeta: Option<map<string, string>>): string {
    if telnetMeta.Some? then Get(telnetMeta.value, "filename") else ""
  }

  /** The track line: "artist - title", the title, the file's base name, or "No track info". */
  function TrackText(artist: string, title: string, filename: string): string {
    if artist != [] && title != [] then artist + " - " + title
    else if title != [] then title
    else if filename != [] then Basename(filename)
    else "No track info"
  }

  /** The source a playing file's path reveals; empty when there is no file. */
  function DetectedSource(filename: string): (s: string)
    ensures filename == [] <==> s == []
    ensures s != [] ==> s == "Noisefloor" || s == "Pandora's Box" || s == "AUTODJ"
  {
    if filename == [] then ""
    else if Contains(filename, "MOBCOIN") then "Noisefloor"
    else if Contains(filename, "pandoras_box") then "Pandora's Box"
    else "AUTODJ"
  }

  /**
   * `build_display`, without the rendering: what each row of the display shows at `hour`, an
   * hour of the clock.
   */
  function BuildDisplay(icecast: Option<Icecast>, telnetMeta: Option<map<string, string>>, remaining: Option<real>, hour: int): Display
    requires 0 <= hour < 24
  {
    var (artist, title) := MergeTrack(icecast, telnetMeta);
    var filename := FilenameOf(telnetMeta);
    var current := GetScheduledSource(hour).0;
    NextChangeExists(hour);
    var (nextHour, nextSource) := GetNextChange(hour).value;
    var detected := DetectedSource(filename);
    Display(
      TrackText(artist, title, filename),
      FormatDuration(remaining),
      if detected != [] then detected else current,
      current,
      current + " until " + FormatHour(nextHour),
      nextSource + " at " + FormatHour(nextHour),
      if icecast.Some? then icecast.value.listeners else 0,
      if icecast.Some? then icecast.value.listenerPeak else 0)
  }

  /** Telnet's artist and title win when present; Icecast only fills the empty ones. */
  lemma MergePrefersTelnet(icecast: Option<Icecast>, m: map<string, string>)
    ensures var r := MergeTrack(icecast, Some(m));
      && (Get(m, "artist") != [] ==> r.0 == Get(m, "artist"))
      && (Get(m, "title") != [] ==> r.1 == Get(m, "title"))
      && (Get(m, "artist") == [] && icecast.Some? ==> r.0 == icecast.value.artist)
      && (Get(m, "title") == [] && icecast.Some? ==> r.1 == icecast.value.title)
      && (icecast.None? ==> r == (Get(m, "artist"), Get(m, "title")))
  {
  }

  /**
   * The source row names the station show the file path reveals ("MOBCOIN" before
   * "pandoras_box", anything else AUTODJ), and the scheduled source when no file is known.
   */
  lemma DisplaySource(icecast: Option<Icecast>, telnetMeta: Option<map<string, string>>, remaining: Option<real>, hour: int)
    requires 0 <= hour < 24
    ensures var d := BuildDisplay(icecast, telnetMeta, remaining, hour); var f := FilenameOf(telnetMeta);
      && (f == [] ==> d.source == GetScheduledSource(hour).0)
      && (f != [] && Contains(f, "MOBCOIN") ==> d.source == "Noisefloor")
      && (f != [] && !Contains(f, "MOBCOIN") && Contains(f, "pandoras_box") ==> d.source == "Pandora's Box")
      && (f != [] && !Contains(f, "MOBCOIN") && !Contains(f, "pandoras_box") ==> d.source == "AUTODJ")
  {
  }

  /**
   * The schedule rows: the scheduled source "until" the next change's hour, and "up next" a
   * different source at that hour, whose reading on the 12-hour clock is that hour's.
   */
  lemma DisplaySchedule(icecast: Option<Icecast>, telnetMeta: Option<map<string, string>>, remaining: Option<real>, hour: int)
    requires 0 <= hour < 24
    ensures var d := BuildDisplay(icecast, telnetMeta, remaining, hour);
      exists next: int, source: string | 0 <= next < 24 && GetNextChange(hour) == Some((next, source)) ::
        && source != d.scheduled
        && source == SourceAt(next)
        && d.scheduled == ScheduledName(hour)
        && d.scheduleLine == d.scheduled + " until " + FormatHour(next)
        && d.upNext == source + " at " + FormatHour(next)
        && FormatHour(next) == NatToString(Clock12(next)) + (if next < 12 then "am" else "pm")
  {
    NextChangeExists(hour);
    NextChangeDiffers(hour);
    ScheduleByHour(hour);
    var (next, source) := GetNextChange(hour).value;
    FormatHourClock(next);
    assert 0 <= next < 24 && GetNextChange(hour) == Some((next, source));
  }

  /** The track line falls back from "artist - title" to the title, the base name and a placeholder. */
  lemma TrackTextCases(artist: string, title: string, filename: string)
    ensures artist != [] && title != [] ==> TrackText(artist, title, filename) == artist + " - " + title
    ensures artist == [] && title != [] ==> TrackText(artist, title, filename) == title
    ensures title == [] && filename != [] ==> TrackText(artist, title, filename) == Basename(filename)
    ensures title == [] && filename != [] ==> '/' !in TrackText(artist, title, filename)
    ensures title == [] && filename == [] ==> TrackText(artist, title, filename) == "No track info"
  {
  }
}
