/** The YouTube transcript agent: it builds the video record from the
    metadata service's answer and the transcript service's segments, reads
    the ISO 8601 duration, and keeps the record it built for its fallback
    parser. Both services are inputs: the metadata as the service returned
    it (or the exception it raised), the transcript fetch as a function of
    the video id. */
module TranscriptAgent {
  import opened Common
  import opened Text
  import opened VideoRecords
  import opened TranscriptService

  const AgentModelName := "llama3.1:8b-instruct-q8_0"
  const ErrorTitle := "Error retrieving data"
  const ErrorDescription := "An error occurred while retrieving video data"
  const UnknownText := "Unknown"
  /** The duration a populated record assumes when the metadata has none. */
  const DefaultIsoDuration := "PT0S"
  const FallbackId := "unknown"
  const FallbackTitle := "Fallback parsing result"
  const FallbackDescription := "Generated by fallback parsing"
  /** The message of the `TypeError` `isodate` raises for a value that is not a string. */
  const NotAString := "Expecting a string"

  /** The digits at `i` followed by the designator `unit`: their value and
      the index after the designator; nothing is consumed otherwise. */
  function Designated(s: string, i: nat, unit: char): (r: (nat, nat))
    requires i <= |s|
    ensures i <= r.1 <= |s|
    ensures r.1 == i ==> r.0 == 0
  {
    var e := DigitRunEnd(s, i);
    if i < e < |s| && s[e] == unit then (DigitsValue(s[i..e]), e + 1) else (0, i)
  }

  /** The time part after 'T': hours, minutes, seconds and the index after them. */
  function TimePart(s: string, e: nat): (r: (nat, nat, nat, nat))
    requires e <= |s|
    ensures e <= r.3 <= |s|
  {
    if e < |s| && s[e] == 'T' then
      var h := Designated(s, e + 1, 'H');
      var m := Designated(s, h.1, 'M');
      var sec := Designated(s, m.1, 'S');
      (h.0, m.0, sec.0, sec.1)
    else (0, 0, 0, e)
  }

  /** `_parse_duration`: the whole seconds of an ISO 8601 duration written
      `[sign]P[nY][nM][nW][nD][T[nH][nM][nS]]` with whole numbers, as
      `isodate` reads it (the pattern may end before a final line feed).
      Years and months make a calendar duration whose seconds leave them
      out. Every other text gives 0 here. For most of it `isodate` raises a
      `ValueError`, which gives 0 too; the exceptions are components with a
      fraction (`PT1.5S` is 1.5 seconds there, so 1) and the alternative
      form `P` followed by a date and time, which this model does not read. */
  function ParseDuration(s: string): int {
    var p := if |s| > 0 && (s[0] == '+' || s[0] == '-') then 1 else 0;
    if p >= |s| || s[p] != 'P' then 0
    else
      var years := Designated(s, p + 1, 'Y');
      var months := Designated(s, years.1, 'M');
      var weeks := Designated(s, months.1, 'W');
      var days := Designated(s, weeks.1, 'D');
      var time := TimePart(s, days.1);
      var f := time.3;
      if f == |s| || (f + 1 == |s| && s[f] == '\n') then
        var total := weeks.0 * 604800 + days.0 * 86400 + time.0 * 3600 + time.1 * 60 + time.2;
        if s[0] == '-' then -total else total
      else 0
  }

  /** A number followed by its designator. */
  function Field(n: nat, unit: char): (r: string)
    ensures |r| == |NatToString(n)| + 1
  {
    NatToString(n) + [unit]
  }

  /** A duration written with all four of days, hours, minutes and seconds. */
  function DurationText(d: nat, h: nat, m: nat, sec: nat): string {
    ['P'] + Field(d, 'D') + ['T'] + Field(h, 'H') + Field(m, 'M') + Field(sec, 'S')
  }

  /** The run of digits that starts at `i` ends at `p`. */
  lemma {:induction false} DigitRunEndAt(s: string, i: nat, p: nat)
    requires i <= p <= |s|
    requires forall j :: i <= j < p ==> IsDigit(s[j])
    requires p < |s| ==> !IsDigit(s[p])
    ensures DigitRunEnd(s, i) == p
    decreases p - i
  {
    if i < p {
      DigitRunEndAt(s, i + 1, p);
    }
  }

  /** A field read with its own designator gives its number, read with
      another it gives nothing. */
  lemma FieldAt(s: string, i: nat, n: nat, unit: char, c: char)
    requires !IsDigit(unit)
    requires i + |Field(n, unit)| <= |s| && s[i..i + |Field(n, unit)|] == Field(n, unit)
    ensures Designated(s, i, c) == if c == unit then (n, i + |Field(n, unit)|) else (0, i)
  {
    var t := NatToString(n);
    var f := Field(n, unit);
    forall j | i <= j < i + |t| ensures IsDigit(s[j]) {
      assert s[j] == f[j - i] == t[j - i];
    }
    assert s[i + |t|] == f[|t|] == unit;
    DigitRunEndAt(s, i, i + |t|);
    assert s[i..i + |t|] == f[..|t|] == t;
    NatToStringRoundTrip(n);
  }

  /** The date part of a duration with days: no years, months or weeks. */
  lemma DurationDate(s: string, d: nat)
    requires 1 + |Field(d, 'D')| <= |s| && s[1..1 + |Field(d, 'D')|] == Field(d, 'D')
    ensures && Designated(s, 1, 'Y') == (0, 1) && Designated(s, 1, 'M') == (0, 1)
            && Designated(s, 1, 'W') == (0, 1) && Designated(s, 1, 'D') == (d, 1 + |Field(d, 'D')|)
  {
    FieldAt(s, 1, d, 'D', 'Y');
    FieldAt(s, 1, d, 'D', 'M');
    FieldAt(s, 1, d, 'D', 'W');
    FieldAt(s, 1, d, 'D', 'D');
  }

  /** The time part of a duration with hours, minutes and seconds. */
  lemma DurationTime(s: string, e: nat, h: nat, m: nat, sec: nat)
    requires var i, j, k := e + 1 + |Field(h, 'H')|, e + 1 + |Field(h, 'H')| + |Field(m, 'M')|,
                            e + 1 + |Field(h, 'H')| + |Field(m, 'M')| + |Field(sec, 'S')|;
      && k <= |s| && s[e] == 'T'
      && s[e + 1..i] == Field(h, 'H') && s[i..j] == Field(m, 'M') && s[j..k] == Field(sec, 'S')
    ensures TimePart(s, e) == (h, m, sec, e + 1 + |Field(h, 'H')| + |Field(m, 'M')| + |Field(sec, 'S')|)
  {
    var i := e + 1 + |Field(h, 'H')|;
    var j := i + |Field(m, 'M')|;
    var k := j + |Field(sec, 'S')|;
    assert Designated(s, e + 1, 'H') == (h, i) by {
      FieldAt(s, e + 1, h, 'H', 'H');
    }
    assert Designated(s, i, 'M') == (m, j) by {
      FieldAt(s, i, m, 'M', 'M');
    }
    assert Designated(s, j, 'S') == (sec, k) by {
      FieldAt(s, j, sec, 'S', 'S');
    }
  }

  /** Reading back a duration written with all four fields gives its seconds. */
  lemma DurationRoundTrip(d: nat, h: nat, m: nat, sec: nat)
    ensures ParseDuration(DurationText(d, h, m, sec)) == d * 86400 + h * 3600 + m * 60 + sec
  {
    DurationLayout(d, h, m, sec);
    ParseLaidOut(DurationText(d, h, m, sec), d, h, m, sec);
  }

  /** A text laid out as 'P', the days, 'T', the hours, the minutes and the
      seconds reads as their seconds. */
  lemma ParseLaidOut(s: string, d: nat, h: nat, m: nat, sec: nat)
    requires var fd, fh, fm, fs := Field(d, 'D'), Field(h, 'H'), Field(m, 'M'), Field(sec, 'S');
      var e := 1 + |fd|;
      var i, j, k := e + 1 + |fh|, e + 1 + |fh| + |fm|, e + 1 + |fh| + |fm| + |fs|;
      && |s| == k && s[0] == 'P' && s[1..e] == fd && s[e] == 'T'
      && s[e + 1..i] == fh && s[i..j] == fm && s[j..k] == fs
    ensures ParseDuration(s) == d * 86400 + h * 3600 + m * 60 + sec
  {
    var e := 1 + |Field(d, 'D')|;
    DurationDate(s, d);
    DurationTime(s, e, h, m, sec);
    ParseDays(s, d, e, h, m, sec);
  }

  /** Where each field sits in a duration written with all four fields. */
  lemma DurationLayout(d: nat, h: nat, m: nat, sec: nat)
    ensures var s, fd, fh, fm, fs := DurationText(d, h, m, sec), Field(d, 'D'), Field(h, 'H'), Field(m, 'M'), Field(sec, 'S');
      var e := 1 + |fd|;
      var i, j, k := e + 1 + |fh|, e + 1 + |fh| + |fm|, e + 1 + |fh| + |fm| + |fs|;
      && |s| == k && s[0] == 'P' && s[1..e] == fd && s[e] == 'T'
      && s[e + 1..i] == fh && s[i..j] == fm && s[j..k] == fs
  {
    Pieces(['P'], Field(d, 'D'), ['T'], Field(h, 'H'), Field(m, 'M'), Field(sec, 'S'));
  }

  /** A duration with no sign, years, months or weeks, whose days end at `e`
      and whose time part runs to the end. */
  lemma ParseDays(s: string, d: nat, e: nat, h: nat, m: nat, sec: nat)
    requires |s| > 0 && s[0] == 'P' && e <= |s|
    requires && Designated(s, 1, 'Y') == (0, 1) && Designated(s, 1, 'M') == (0, 1)
             && Designated(s, 1, 'W') == (0, 1) && Designated(s, 1, 'D') == (d, e)
    requires TimePart(s, e) == (h, m, sec, |s|)
    ensures ParseDuration(s) == d * 86400 + h * 3600 + m * 60 + sec
  {
  }

  /** Where each of six pieces sits in their concatenation. */
  lemma Pieces(a: string, b: string, c: string, d: string, e: string, f: string)
    ensures var s := a + b + c + d + e + f;
      var i := |a| + |b| + |c|;
      && s[|a|..|a| + |b|] == b && s[|a| + |b|..i] == c && s[i..i + |d|] == d
      && s[i + |d|..i + |d| + |e|] == e && s[i + |d| + |e|..] == f
  {
    var s := a + b + c + d + e + f;
    var i := |a| + |b| + |c|;
    assert s[|a|..|a| + |b|] == b by {
      Middle(a, b, c + d + e + f);
      assert s == a + b + (c + d + e + f);
    }
    assert s[|a| + |b|..i] == c by {
      Middle(a + b, c, d + e + f);
      assert s == a + b + c + (d + e + f);
    }
    assert s[i..i + |d|] == d by {
      Middle(a + b + c, d, e + f);
      assert s == a + b + c + d + (e + f);
    }
    assert s[i + |d|..i + |d| + |e|] == e && s[i + |d| + |e|..] == f by {
      Middle(a + b + c + d, e, f);
    }
  }

  /** The default duration reads as no time at all. */
  lemma DefaultDurationIsZero()
    ensures ParseDuration(DefaultIsoDuration) == 0
  {
    var s := DefaultIsoDuration;
    assert Field(0, 'S') == "0S";
    assert s[2..4] == Field(0, 'S');
    FieldAt(s, 2, 0, 'S', 'H');
    FieldAt(s, 2, 0, 'S', 'M');
    FieldAt(s, 2, 0, 'S', 'S');
    assert DigitRunEnd(s, 1) == 1;
    assert TimePart(s, 1) == (0, 0, 0, 4);
  }

  /** Twenty-one minutes and fifty-three seconds are 1313 seconds. */
  lemma MinutesSecondsExample()
    ensures ParseDuration("PT21M53S") == 1313
  {
    assert NatToString(2) == "2" && NatToString(21) == "21";
    assert NatToString(5) == "5" && NatToString(53) == "53";
    assert "PT21M53S" == "PT" + Field(21, 'M') + Field(53, 'S');
    MinutesSecondsRoundTrip(21, 53);
  }

  /** A duration of minutes and seconds alone reads back as its seconds. */
  lemma MinutesSecondsRoundTrip(m: nat, sec: nat)
    ensures ParseDuration("PT" + Field(m, 'M') + Field(sec, 'S')) == m * 60 + sec
  {
    var s := "PT" + Field(m, 'M') + Field(sec, 'S');
    MinutesSecondsLayout(m, sec);
    MinutesSecondsTime(s, m, sec);
    ParseTimeOnly(s, m, sec);
  }

  /** Where the two fields sit in a duration of minutes and seconds. */
  lemma MinutesSecondsLayout(m: nat, sec: nat)
    ensures var s, i := "PT" + Field(m, 'M') + Field(sec, 'S'), 2 + |Field(m, 'M')|;
      && |s| == i + |Field(sec, 'S')| && s[0] == 'P' && s[1] == 'T'
      && s[2..i] == Field(m, 'M') && s[i..] == Field(sec, 'S')
  {
    var s := "PT" + Field(m, 'M') + Field(sec, 'S');
    Middle("PT", Field(m, 'M'), Field(sec, 'S'));
  }

  /** The time part of a duration of minutes and seconds. */
  lemma MinutesSecondsTime(s: string, m: nat, sec: nat)
    requires var i := 2 + |Field(m, 'M')|;
      && |s| == i + |Field(sec, 'S')| && s[1] == 'T'
      && s[2..i] == Field(m, 'M') && s[i..] == Field(sec, 'S')
    ensures TimePart(s, 1) == (0, m, sec, |s|)
  {
    var i := 2 + |Field(m, 'M')|;
    assert s[i..i + |Field(sec, 'S')|] == Field(sec, 'S');
    FieldAt(s, 2, m, 'M', 'H');
    FieldAt(s, 2, m, 'M', 'M');
    FieldAt(s, i, sec, 'S', 'S');
  }

  /** A duration with only a time part, running to the end. */
  lemma ParseTimeOnly(s: string, m: nat, sec: nat)
    requires |s| > 1 && s[0] == 'P' && s[1] == 'T'
    requires TimePart(s, 1) == (0, m, sec, |s|)
    ensures ParseDuration(s) == m * 60 + sec
  {
    DigitRunEndAt(s, 1, 1);
  }

  /** `TranscriptSegment(text=..., start=..., duration=...)` of one raw item. */
  function SegmentOf(item: map<string, Json>): (r: Segment)
    ensures r.text == Get(item, "text", JStr("")) && r.start == Get(item, "start", JNum(0.0))
    ensures r.duration == Get(item, "duration", JNull)
  {
    Segment(Get(item, "text", JStr("")), Get(item, "start", JNum(0.0)), Get(item, "duration", JNull))
  }

  /** `_process_transcript`: one segment per raw item, in order; an item that
      is not a mapping raises. */
  function Segments(items: seq<Json>): (r: Outcome<seq<Segment>>)
    ensures r.Ok? <==> forall i :: 0 <= i < |items| ==> items[i].JObject?
    ensures r.Ok? ==> |r.value| == |items| && forall i :: 0 <= i < |items| ==> r.value[i] == SegmentOf(items[i].fields)
    ensures r.Raised? ==> r == Raised(NoGet)
    decreases |items|
  {
    if items == [] then Ok([])
    else
      var last := items[|items| - 1];
      match Segments(items[..|items| - 1])
      case Raised(m) => Raised(m)
      case Ok(front) => if last.JObject? then Ok(front + [SegmentOf(last.fields)]) else Raised(NoGet)
  }

  /** The record built when the metadata could not be read as a video and a
      channel. */
  function Minimal(videoId: string, transcript: seq<Segment>): VideoData {
    VideoData(videoId, JStr(ErrorTitle), JStr(ErrorDescription), JStr(UnknownText), JStr(UnknownText),
              JStr(UnknownText), transcript, None, 0)
  }

  /** The record built from the metadata's video and channel parts; either
      part must be a mapping, and so must the comments, and the duration
      must be a string. */
  function Populated(videoId: string, video: Json, channel: Json, transcript: seq<Segment>): Outcome<VideoData> {
    if !video.JObject? || !channel.JObject? then Raised(NoGet)
    else
      var v := video.fields;
      var comments := Get(v, "comments", JObject(map[]));
      var duration := Get(v, "duration", JStr(DefaultIsoDuration));
      if !comments.JObject? then Raised(NoGet)
      else if !duration.JStr? then Raised(NotAString)
      else Ok(VideoData(
        videoId,
        Get(v, "title", JStr(ErrorTitle)),
        Get(v, "description", JStr(ErrorDescription)),
        Get(channel.fields, "title", JStr(UnknownText)),
        Get(channel.fields, "id", JStr(UnknownText)),
        Get(v, "publishedAt", JStr(UnknownText)),
        transcript,
        Some(Details(Get(v, "thumbnail", JNull), Get(v, "views", JNum(0.0)), Get(v, "likes", JNull),
                     Get(comments.fields, "commentCount", JNull), Get(v, "tags", JArray([])))),
        ParseDuration(duration.s)))
  }

  /** The metadata holds a video part and a channel part. */
  predicate HasParts(meta: Option<map<string, Json>>) {
    meta.Some? && "video" in meta.value && "channel" in meta.value
  }

  /** The segments of the transcript fetched for the watch-page URL: none
      when the service found nothing. */
  function FetchedSegments(videoId: string, fetch: string -> Outcome<Json>): Outcome<seq<Segment>> {
    match TranscriptDataFor(WatchUrl(videoId), fetch)
    case None => Ok([])
    case Some(data) =>
      match Iterated(data.transcript)
      case Raised(m) => Raised(m)
      case Ok(items) => Segments(items)
  }

  /** The body of `run` up to its exception handler. */
  function TranscriptAttempt(videoId: string, metadata: Outcome<Option<map<string, Json>>>,
                             fetch: string -> Outcome<Json>): Outcome<VideoData>
  {
    match metadata
    case Raised(m) => Raised(m)
    case Ok(meta) =>
      match FetchedSegments(videoId, fetch)
      case Raised(m) => Raised(m)
      case Ok(segments) =>
        if HasParts(meta) then Populated(videoId, meta.value["video"], meta.value["channel"], segments)
        else Ok(Minimal(videoId, segments))
  }

  /** `run(video_id)`: the record built, or the minimal record without a
      transcript when anything raised. */
  function TranscriptRun(videoId: string, metadata: Outcome<Option<map<string, Json>>>,
                         fetch: string -> Outcome<Json>): VideoData
  {
    match TranscriptAttempt(videoId, metadata, fetch)
    case Ok(r) => r
    case Raised(_) => Minimal(videoId, [])
  }

  /** The record is always about the requested video; without a video and a
      channel part it carries the error texts and a zero duration, and a
      metadata service that raised leaves it without a transcript too. */
  lemma TranscriptRunShape(videoId: string, metadata: Outcome<Option<map<string, Json>>>, fetch: string -> Outcome<Json>)
    ensures var r := TranscriptRun(videoId, metadata, fetch);
      && r.videoId == videoId
      && (metadata.Raised? ==> r == Minimal(videoId, []))
      && (metadata.Ok? && !HasParts(metadata.value) ==>
            r.title == JStr(ErrorTitle) && r.channel == JStr(UnknownText) && r.duration == 0 && r.details.None?)
      && (r.details.None? ==> r.duration == 0 && r.title == JStr(ErrorTitle))
  {
  }

  /** The transcript of a plain video id is the one fetched for that very id,
      segment by segment, whenever the fetch and the metadata succeed and
      the transcript is a list of mappings. */
  lemma TranscriptOfId(videoId: string, meta: Option<map<string, Json>>, fetch: string -> Outcome<Json>, items: seq<Json>)
    requires PlainId(videoId) && fetch(videoId) == Ok(JArray(items))
    requires forall i :: 0 <= i < |items| ==> items[i].JObject?
    requires !HasParts(meta)
    ensures var r := TranscriptRun(videoId, Ok(meta), fetch);
      |r.transcript| == |items| && forall i :: 0 <= i < |items| ==> r.transcript[i] == SegmentOf(items[i].fields)
  {
    WatchUrlFetchesId(videoId, fetch);
  }

  /** A fetch that fails, or a transcript item that is not a mapping, leaves
      the record without a transcript. */
  lemma NoTranscriptOnFailure(videoId: string, meta: Option<map<string, Json>>, fetch: string -> Outcome<Json>)
    requires PlainId(videoId) && fetch(videoId).Raised?
    ensures TranscriptRun(videoId, Ok(meta), fetch).transcript == []
  {
    WatchUrlFetchesId(videoId, fetch);
  }

  /** The record `fallback_parsing` builds when no run has stored one. */
  function FallbackRecord(): VideoData {
    VideoData(FallbackId, JStr(FallbackTitle), JStr(FallbackDescription), JStr(UnknownText), JStr(UnknownText),
              JStr(UnknownText), [], None, 0)
  }

  class YouTubeTranscriptAgent {
    const apiKey: string
    const modelName: string
    /** The record of the last run; unset until `run` is called. */
    var inputData: Option<VideoData>

    constructor(apiKey: string, modelName: string)
      ensures this.apiKey == apiKey && this.modelName == modelName
      ensures inputData.None?
    {
      this.apiKey := apiKey;
      this.modelName := modelName;
      inputData := None;
    }

    /** `_process_transcript`: the segments are appended item by item. */
    method ProcessTranscript(items: seq<Json>) returns (r: Outcome<seq<Segment>>)
      ensures r == Segments(items)
    {
      var segments: seq<Segment> := [];
      var i := 0;
      while i < |items|
        invariant 0 <= i <= |items|
        invariant Segments(items[..i]) == Ok(segments)
      {
        assert items[..i + 1][..i] == items[..i];
        if !items[i].JObject? {
          assert !items[..i + 1][i].JObject?;
          assert Segments(items[..i + 1]).Raised?;
          SegmentsPrefix(items, i + 1);
          return Raised(NoGet);
        }
        segments := segments + [SegmentOf(items[i].fields)];
        i := i + 1;
      }
      assert items[..i] == items;
      r := Ok(segments);
    }

    /** `run(video_id)`: the record is built, stored and returned; any
        exception gives the minimal record without a transcript, which is
        stored too. */
    method Run(videoId: string, metadata: Outcome<Option<map<string, Json>>>, fetch: string -> Outcome<Json>)
      returns (r: VideoData)
      modifies this
      ensures r == TranscriptRun(videoId, metadata, fetch)
      ensures inputData == Some(r)
    {
      r := Minimal(videoId, []);
      if metadata.Ok? {
        var segments: Outcome<seq<Segment>> := Ok([]);
        var data := TranscriptDataFor(WatchUrl(videoId), fetch);
        if data.Some? {
          var items := Iterated(data.value.transcript);
          if items.Ok? {
            segments := ProcessTranscript(items.value);
          } else {
            segments := Raised(items.message);
          }
        }
        if segments.Ok? {
          if HasParts(metadata.value) {
            var built := Populated(videoId, metadata.value.value["video"], metadata.value.value["channel"], segments.value);
            if built.Ok? {
              r := built.value;
            }
          } else {
            r := Minimal(videoId, segments.value);
          }
        }
      }
      inputData := Some(r);
    }

    /** `fallback_parsing`: the stored record (a stored record is always
        truthy), or the fixed fallback record. */
    method FallbackParsing(raw: string) returns (r: VideoData)
      ensures inputData.Some? ==> r == inputData.value
      ensures inputData.None? ==> r == FallbackRecord()
    {
      if inputData.Some? {
        return inputData.value;
      }
      return FallbackRecord();
    }
  }

  /** A failure in a prefix is a failure of the whole. */
  lemma SegmentsPrefix(items: seq<Json>, n: nat)
    requires n <= |items| && Segments(items[..n]).Raised?
    ensures Segments(items).Raised?
  {
    var j :| 0 <= j < n && !items[..n][j].JObject?;
    assert items[j] == items[..n][j];
  }
}
