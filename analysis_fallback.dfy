/** The second half of the video-enhancement agent's `fallback_parsing`: the
    sections are read, in order, into topics, key points, sentiment, language
    level, summary and topic segments; a text without topic sections is
    searched for list items; and the analysis record is assembled with its
    fixed defaults. Every loop of the source is a method here, proved equal to
    the accumulating function beside it. */
module AnalysisFallback {
  import opened Common
  import opened Text
  import opened Timestamps
  import opened AnalysisRecords
  import opened AnalysisSections

  const SummarySentinel := "Analysis failed. Summary could not be extracted."
  const TopicsFailed := "Topic extraction failed"
  const PointsFailed := "Key points extraction failed"
  const SentimentWords: seq<string> := ["positive", "negative", "neutral", "mixed", "controversial"]
  const LevelWords: seq<string> := ["beginner", "intermediate", "advanced", "technical", "academic", "professional"]
  const MaxTopics := 7
  const MaxPoints := 8
  /** A topic without a later topic or a video end lasts five minutes. */
  const DefaultSpan := 300.0
  /** Adding a `None` duration to a start time raises a `TypeError`. */
  const NoneDurationError := "unsupported operand type(s) for +: 'float' and 'NoneType'"

  // ---------------------------------------------------------------------
  // List items inside a section

  predicate IsBullet(line: string) {
    line != [] && line[0] in {'-', '*', '•'}
  }

  /** `re.sub(r'^[-*•]\s*', '', line)` on a bullet line. */
  function Unbullet(line: string): string
    requires IsBullet(line)
  {
    TrimStart(line[1..])
  }

  function BulletItem(line: string): Option<string> {
    if IsBullet(line) then Some(Unbullet(line)) else None
  }

  /** The bullet lines of a section with their markers removed. */
  function Bullets(content: seq<string>): seq<string> {
    FilterMap(BulletItem, content)
  }

  /** An item is a bullet of the section exactly when some bullet line of the
      section reads as it once its marker is removed. */
  lemma BulletsIff(content: seq<string>, x: string)
    ensures x in Bullets(content) <==> exists j :: 0 <= j < |content| && IsBullet(content[j]) && Unbullet(content[j]) == x
  {
    FilterMapIff(BulletItem, content, x);
    if exists j :: 0 <= j < |content| && IsBullet(content[j]) && Unbullet(content[j]) == x {
      var j :| 0 <= j < |content| && IsBullet(content[j]) && Unbullet(content[j]) == x;
      assert BulletItem(content[j]) == Some(x);
    }
  }

  // ---------------------------------------------------------------------
  // Comma- or semicolon-separated topics

  predicate Delimited(line: string) {
    ',' in line || ';' in line
  }

  function StrippedItem(piece: string): Option<string> {
    if Strip(piece) != "" then Some(Strip(piece)) else None
  }

  /** `[t.strip() for t in re.split(r'[,;]', line) if t.strip()]`. */
  function SplitTopics(line: string): seq<string> {
    FilterMap(StrippedItem, Split(line, {',', ';'}))
  }

  /** A list of clean topics joined with commas is read back exactly. */
  lemma {:induction false} SplitTopicsRoundTrip(topics: seq<string>)
    requires |topics| >= 1
    requires forall k :: 0 <= k < |topics| ==> topics[k] != "" && Strip(topics[k]) == topics[k] && NoneIn(topics[k], {',', ';'})
    ensures SplitTopics(Join(",", topics)) == topics
  {
    JoinSplit(topics, ',', {',', ';'});
    FilterMapAll(StrippedItem, topics);
  }

  /** The loop over a section's lines: the last delimited line decides the topics. */
  function CommaTopics(acc: seq<string>, content: seq<string>): seq<string>
    decreases |content|
  {
    if content == [] then acc
    else CommaTopics(if Delimited(content[0]) then SplitTopics(content[0]) else acc, content[1..])
  }

  lemma {:induction false} LastDelimitedWins(acc: seq<string>, content: seq<string>, j: nat)
    requires j < |content| && Delimited(content[j])
    requires forall k :: j < k < |content| ==> !Delimited(content[k])
    ensures CommaTopics(acc, content) == SplitTopics(content[j])
    decreases |content|
  {
    var next := if Delimited(content[0]) then SplitTopics(content[0]) else acc;
    if j == 0 {
      NoDelimiterKeeps(next, content[1..]);
    } else {
      LastDelimitedWins(next, content[1..], j - 1);
    }
  }

  lemma {:induction false} NoDelimiterKeeps(acc: seq<string>, content: seq<string>)
    requires forall k :: 0 <= k < |content| ==> !Delimited(content[k])
    ensures CommaTopics(acc, content) == acc
    decreases |content|
  {
    if content != [] {
      NoDelimiterKeeps(acc, content[1..]);
    }
  }

  /** The loop over a section's lines looking for delimited ones. */
  method LastDelimitedTopics(prior: seq<string>, content: seq<string>) returns (topics: seq<string>)
    ensures topics == CommaTopics(prior, content)
  {
    topics := prior;
    var i := 0;
    while i < |content|
      invariant 0 <= i <= |content|
      invariant CommaTopics(topics, content[i..]) == CommaTopics(prior, content)
    {
      assert content[i..][1..] == content[i + 1..];
      if ',' in content[i] || ';' in content[i] {
        topics := SplitTopics(content[i]);
      }
      i := i + 1;
    }
    assert content[i..] == [];
  }

  /** The topics after a topic section: its bullets if it has any, otherwise
      the pieces of its last delimited line, otherwise the earlier topics. */
  function SectionTopics(prior: seq<string>, content: seq<string>): seq<string> {
    var b := Bullets(content);
    if b != [] then b else CommaTopics(prior, content)
  }

  // ---------------------------------------------------------------------
  // Keywords

  /** The first word of `words`, in the order of `words`, that occurs in `text`. */
  function FirstKeyword(words: seq<string>, text: string): (r: Option<string>)
    ensures r.None? <==> forall k :: 0 <= k < |words| ==> !Contains(text, words[k])
    ensures r.Some? ==> exists k :: 0 <= k < |words| && words[k] == r.value && Contains(text, words[k])
                                   && forall j :: 0 <= j < k ==> !Contains(text, words[j])
    decreases |words|
  {
    if words == [] then None
    else if Contains(text, words[0]) then Some(words[0])
    else
      var r := FirstKeyword(words[1..], text);
      assert forall k :: 1 <= k < |words| ==> words[k] == words[1..][k - 1];
      r
  }

  /** The loop over the keywords, with its `break`. */
  method ScanKeywords(words: seq<string>, text: string) returns (r: Option<string>)
    ensures r == FirstKeyword(words, text)
  {
    r := None;
    var i := 0;
    while i < |words|
      invariant 0 <= i <= |words|
      invariant FirstKeyword(words, text) == FirstKeyword(words[i..], text)
    {
      assert words[i..][1..] == words[i + 1..];
      if Contains(text, words[i]) {
        r := Some(words[i]);
        return;
      }
      i := i + 1;
    }
  }

  /** The value a keyword search leaves: the capitalised keyword, or the old value. */
  function KeywordValue(words: seq<string>, text: string, old_: string): string {
    match FirstKeyword(words, Lower(text))
    case Some(w) => Capitalize(w)
    case None => old_
  }

  // ---------------------------------------------------------------------
  // Topic segments

  /** Topic `t` starts after `topic` in the section's timestamps. */
  predicate Later(t: string, topic: string, times: map<string, real>)
    requires Lower(topic) in times
  {
    t != topic && Lower(t) in times && times[Lower(t)] > times[Lower(topic)]
  }

  /** One step of the next-topic loop. */
  function Nearer(best: Option<real>, t: string, topic: string, times: map<string, real>): Option<real>
    requires Lower(topic) in times
  {
    if Later(t, topic, times) && (best.None? || times[Lower(t)] < best.value) then Some(times[Lower(t)]) else best
  }

  function NextFold(best: Option<real>, ts: seq<string>, topic: string, times: map<string, real>): Option<real>
    requires Lower(topic) in times
    decreases |ts|
  {
    if ts == [] then best else NextFold(Nearer(best, ts[0], topic, times), ts[1..], topic, times)
  }

  /** The start of the nearest later topic, if any. */
  function NextTime(topics: seq<string>, topic: string, times: map<string, real>): Option<real>
    requires Lower(topic) in times
  {
    NextFold(None, topics, topic, times)
  }

  lemma {:induction false} NextFoldNearest(best: Option<real>, ts: seq<string>, topic: string, times: map<string, real>)
    requires Lower(topic) in times
    ensures var r := NextFold(best, ts, topic, times);
      && (r.None? <==> best.None? && forall k :: 0 <= k < |ts| ==> !Later(ts[k], topic, times))
      && (r.Some? ==> r == best || exists k :: 0 <= k < |ts| && Later(ts[k], topic, times) && times[Lower(ts[k])] == r.value)
      && (r.Some? ==> forall k :: 0 <= k < |ts| && Later(ts[k], topic, times) ==> r.value <= times[Lower(ts[k])])
      && (best.Some? ==> r.Some? && r.value <= best.value)
    decreases |ts|
  {
    if ts != [] {
      var b := Nearer(best, ts[0], topic, times);
      NextFoldNearest(b, ts[1..], topic, times);
      assert forall k :: 1 <= k < |ts| ==> ts[k] == ts[1..][k - 1];
    }
  }

  /** The next-topic loop finds the earliest start among the topics that start
      later, and nothing when no topic starts later. */
  lemma NextTimeNearest(topics: seq<string>, topic: string, times: map<string, real>)
    requires Lower(topic) in times
    ensures var r := NextTime(topics, topic, times);
      && (r.None? <==> forall k :: 0 <= k < |topics| ==> !Later(topics[k], topic, times))
      && (r.Some? ==> exists k :: 0 <= k < |topics| && Later(topics[k], topic, times) && times[Lower(topics[k])] == r.value)
      && (r.Some? ==> forall k :: 0 <= k < |topics| && Later(topics[k], topic, times) ==> r.value <= times[Lower(topics[k])])
  {
    NextFoldNearest(None, topics, topic, times);
  }

  /** With a single timestamp key no topic starts later than another. */
  lemma SingleKeyNoNext(topics: seq<string>, topic: string, times: map<string, real>)
    requires Lower(topic) in times && |times.Keys| <= 1
    ensures NextTime(topics, topic, times).None?
  {
    forall k | 0 <= k < |topics| ensures !Later(topics[k], topic, times) {
      if Lower(topics[k]) in times && Lower(topics[k]) != Lower(topic) {
        assert {Lower(topics[k]), Lower(topic)} <= times.Keys;
        assert |{Lower(topics[k]), Lower(topic)}| == 2;
        SubsetCard({Lower(topics[k]), Lower(topic)}, times.Keys);
      }
    }
    NextTimeNearest(topics, topic, times);
  }

  lemma SubsetCard<T>(a: set<T>, b: set<T>)
    requires a <= b
    ensures |a| <= |b|
  {
    assert b == a + (b - a);
  }

  /** The loop over the other topics. */
  method FindNextTime(topics: seq<string>, topic: string, times: map<string, real>) returns (next: Option<real>)
    requires Lower(topic) in times
    ensures next == NextTime(topics, topic, times)
  {
    next := None;
    var i := 0;
    while i < |topics|
      invariant 0 <= i <= |topics|
      invariant NextFold(next, topics[i..], topic, times) == NextTime(topics, topic, times)
    {
      assert topics[i..][1..] == topics[i + 1..];
      var t := topics[i];
      if t != topic && Lower(t) in times && times[Lower(t)] > times[Lower(topic)] {
        if next.None? || times[Lower(t)] < next.value {
          next := Some(times[Lower(t)]);
        }
      }
      i := i + 1;
    }
  }

  /** Where the last transcript entry ends. */
  function VideoEnd(transcript: seq<Entry>): Outcome<real>
    requires transcript != []
  {
    var last := transcript[|transcript| - 1];
    match last.duration
    case Absent => Ok(last.start)
    case Null => Raised(NoneDurationError)
    case Seconds(x) => Ok(last.start + x)
  }

  /** The end of a topic's segment. A missing (or zero) next start with a
      non-empty transcript gives the end of the video; every other case,
      including a next start that was found, gives the start plus five
      minutes. */
  function EndTime(start: real, next: Option<real>, transcript: seq<Entry>): (r: Outcome<real>)
    ensures r.Raised? <==> (next.None? || next.value == 0.0) && transcript != []
                           && transcript[|transcript| - 1].duration == Null
  {
    if (next.None? || next.value == 0.0) && transcript != [] then VideoEnd(transcript)
    else Ok(start + DefaultSpan)
  }

  /** One topic of the segment loop. */
  function SegmentOf(t: string, topics: seq<string>, times: map<string, real>, transcript: seq<Entry>): Outcome<Option<TopicSegment>> {
    if Lower(t) !in times then Ok(None)
    else
      var start := times[Lower(t)];
      match EndTime(start, NextTime(topics, t, times), transcript)
      case Raised(m) => Raised(m)
      case Ok(end) => Ok(Some(TopicSegment(t, start, end, [])))
  }

  /** The loop over the topics, appending a segment for each topic that has a
      timestamp; an error ends it. */
  function SegmentFold(acc: seq<TopicSegment>, ts: seq<string>, topics: seq<string>, times: map<string, real>, transcript: seq<Entry>): Outcome<seq<TopicSegment>>
    decreases |ts|
  {
    if ts == [] then Ok(acc)
    else match SegmentOf(ts[0], topics, times, transcript)
      case Raised(m) => Raised(m)
      case Ok(None) => SegmentFold(acc, ts[1..], topics, times, transcript)
      case Ok(Some(seg)) => SegmentFold(acc + [seg], ts[1..], topics, times, transcript)
  }

  method TopicSegments(acc: seq<TopicSegment>, topics: seq<string>, times: map<string, real>, transcript: seq<Entry>)
    returns (r: Outcome<seq<TopicSegment>>)
    ensures r == SegmentFold(acc, topics, topics, times, transcript)
  {
    var segments := acc;
    var i := 0;
    while i < |topics|
      invariant 0 <= i <= |topics|
      invariant SegmentFold(segments, topics[i..], topics, times, transcript) == SegmentFold(acc, topics, topics, times, transcript)
    {
      assert topics[i..][1..] == topics[i + 1..];
      var topic := topics[i];
      if Lower(topic) in times {
        var next := FindNextTime(topics, topic, times);
        var start := times[Lower(topic)];
        var end := EndTime(start, next, transcript);
        if end.Raised? {
          return Raised(end.message);
        }
        segments := segments + [TopicSegment(topic, start, end.value, [])];
      }
      i := i + 1;
    }
    assert topics[i..] == [];
    r := Ok(segments);
  }

  /** A segment ends where the video ends, or five minutes after its start
      when the transcript is empty. */
  predicate EndsWell(seg: TopicSegment, transcript: seq<Entry>) {
    if transcript != [] then VideoEnd(transcript) == Ok(seg.endTime) else seg.endTime == seg.startTime + DefaultSpan
  }

  lemma {:induction false} SegmentFoldEnds(acc: seq<TopicSegment>, ts: seq<string>, topics: seq<string>, times: map<string, real>, transcript: seq<Entry>)
    requires |times.Keys| <= 1
    requires forall k :: 0 <= k < |acc| ==> EndsWell(acc[k], transcript)
    ensures SegmentFold(acc, ts, topics, times, transcript).Ok? ==>
      forall k :: 0 <= k < |SegmentFold(acc, ts, topics, times, transcript).value| ==>
        EndsWell(SegmentFold(acc, ts, topics, times, transcript).value[k], transcript)
    ensures SegmentFold(acc, ts, topics, times, transcript).Raised? ==>
      transcript != [] && transcript[|transcript| - 1].duration == Null
    decreases |ts|
  {
    if ts != [] {
      var s := SegmentOf(ts[0], topics, times, transcript);
      if Lower(ts[0]) in times {
        SingleKeyNoNext(topics, ts[0], times);
      }
      if s.Ok? && s.value.Some? {
        var acc' := acc + [s.value.value];
        assert forall k :: 0 <= k < |acc'| ==> EndsWell(acc'[k], transcript);
        SegmentFoldEnds(acc', ts[1..], topics, times, transcript);
      } else if s.Ok? {
        SegmentFoldEnds(acc, ts[1..], topics, times, transcript);
      }
    }
  }

  // ---------------------------------------------------------------------
  // Sections

  /** What has been extracted so far. */
  datatype Acc = Acc(topics: seq<string>, segments: seq<TopicSegment>, points: seq<string>,
                     sentiment: string, level: string, summary: string)

  const Initial: Acc := Acc([], [], [], "Unknown", "Unknown", SummarySentinel)

  /** The fields a section sets by its name, before its segments are added. */
  function Absorb(acc: Acc, name: string, content: seq<string>): Acc {
    var text := Join(" ", content);
    var b := Bullets(content);
    acc.(
      topics := if Contains(name, "topic") || Contains(name, "main") then SectionTopics(acc.topics, content) else acc.topics,
      sentiment := if Contains(name, "sentiment") || Contains(name, "tone") then KeywordValue(SentimentWords, text, acc.sentiment) else acc.sentiment,
      level := if Contains(name, "language") || Contains(name, "education") then KeywordValue(LevelWords, text, acc.level) else acc.level,
      points := if (Contains(name, "key point") || Contains(name, "main point")) && b != [] then b else acc.points,
      summary := if Contains(name, "summary") then text else acc.summary)
  }

  /** The timestamps of a section, read from its lines joined by spaces. */
  function SectionTimes(content: seq<string>): map<string, real> {
    TimesOf(Split(Join(" ", content), {'\n'}))
  }

  /** One section: its fields, then a segment for every current topic that
      has a timestamp in it. */
  function ProcessSection(acc: Acc, name: string, content: seq<string>, transcript: seq<Entry>): Outcome<Acc> {
    var a := Absorb(acc, name, content);
    match SegmentFold(a.segments, a.topics, a.topics, SectionTimes(content), transcript)
    case Raised(m) => Raised(m)
    case Ok(segments) => Ok(a.(segments := segments))
  }

  /** The keyword search of a sentiment or level section. */
  method KeywordSearch(words: seq<string>, text: string, old_: string) returns (v: string)
    ensures v == KeywordValue(words, text, old_)
  {
    v := old_;
    var w := ScanKeywords(words, Lower(text));
    if w.Some? {
      v := Capitalize(w.value);
    }
  }

  /** The topic extraction of a topic section. */
  method TopicSearch(prior: seq<string>, content: seq<string>) returns (topics: seq<string>)
    ensures topics == SectionTopics(prior, content)
  {
    var b := Bullets(content);
    if b != [] {
      topics := b;
    } else {
      topics := LastDelimitedTopics(prior, content);
    }
  }

  /** The fields a section sets by its name. */
  method AbsorbSection(acc: Acc, name: string, content: seq<string>) returns (a: Acc)
    ensures a == Absorb(acc, name, content)
  {
    var text := Join(" ", content);
    var topics := acc.topics;
    if Contains(name, "topic") || Contains(name, "main") {
      topics := TopicSearch(topics, content);
    }
    var sentiment := acc.sentiment;
    if Contains(name, "sentiment") || Contains(name, "tone") {
      sentiment := KeywordSearch(SentimentWords, text, sentiment);
    }
    var level := acc.level;
    if Contains(name, "language") || Contains(name, "education") {
      level := KeywordSearch(LevelWords, text, level);
    }
    var points := acc.points;
    if Contains(name, "key point") || Contains(name, "main point") {
      var b := Bullets(content);
      if b != [] {
        points := b;
      }
    }
    var summary := acc.summary;
    if Contains(name, "summary") {
      summary := text;
    }
    a := Acc(topics, acc.segments, points, sentiment, level, summary);
  }

  /** The body of the loop over the sections. */
  method ReadSection(acc: Acc, name: string, content: seq<string>, transcript: seq<Entry>) returns (r: Outcome<Acc>)
    ensures r == ProcessSection(acc, name, content, transcript)
  {
    var a := AbsorbSection(acc, name, content);
    var times := ExtractTimestamps(Join(" ", content));
    var segments := TopicSegments(a.segments, a.topics, times, transcript);
    r := match segments
      case Raised(m) => Raised(m)
      case Ok(s) => Ok(a.(segments := s));
  }

  /** The loop over the sections in their order. */
  function ProcessAll(acc: Acc, sections: Sections, transcript: seq<Entry>): Outcome<Acc>
    decreases |sections|
  {
    if sections == [] then Ok(acc)
    else match ProcessSection(acc, sections[0].0, sections[0].1, transcript)
      case Raised(m) => Raised(m)
      case Ok(a) => ProcessAll(a, sections[1..], transcript)
  }

  /** The values the fields can take: a sentiment and a level are "Unknown" or
      a capitalised keyword, and every segment ends at the video's end. */
  ghost predicate Sound(acc: Acc, transcript: seq<Entry>) {
    && (acc.sentiment == "Unknown" || exists k :: 0 <= k < |SentimentWords| && acc.sentiment == Capitalize(SentimentWords[k]))
    && (acc.level == "Unknown" || exists k :: 0 <= k < |LevelWords| && acc.level == Capitalize(LevelWords[k]))
    && forall k :: 0 <= k < |acc.segments| ==> EndsWell(acc.segments[k], transcript)
  }

  lemma KeywordValueFrom(words: seq<string>, text: string, old_: string)
    ensures KeywordValue(words, text, old_) == old_ || exists k :: 0 <= k < |words| && KeywordValue(words, text, old_) == Capitalize(words[k])
  {
  }

  lemma AbsorbSound(acc: Acc, name: string, content: seq<string>, transcript: seq<Entry>)
    requires Sound(acc, transcript)
    ensures Sound(Absorb(acc, name, content), transcript)
  {
    var text := Join(" ", content);
    KeywordValueFrom(SentimentWords, text, acc.sentiment);
    KeywordValueFrom(LevelWords, text, acc.level);
  }

  lemma ProcessSectionSound(acc: Acc, name: string, content: seq<string>, transcript: seq<Entry>)
    requires Sound(acc, transcript)
    requires forall k :: 0 <= k < |content| ==> '\n' !in content[k]
    ensures ProcessSection(acc, name, content, transcript).Ok? ==> Sound(ProcessSection(acc, name, content, transcript).value, transcript)
    ensures ProcessSection(acc, name, content, transcript).Raised? ==>
      transcript != [] && transcript[|transcript| - 1].duration == Null
  {
    var a := Absorb(acc, name, content);
    AbsorbSound(acc, name, content, transcript);
    SectionOneKey(content);
    SegmentFoldEnds(a.segments, a.topics, a.topics, SectionTimes(content), transcript);
  }

  lemma {:induction false} ProcessAllSound(acc: Acc, sections: Sections, transcript: seq<Entry>)
    requires Sound(acc, transcript) && NoBreakLines(sections)
    ensures ProcessAll(acc, sections, transcript).Ok? ==> Sound(ProcessAll(acc, sections, transcript).value, transcript)
    ensures ProcessAll(acc, sections, transcript).Raised? ==>
      transcript != [] && transcript[|transcript| - 1].duration == Null
    decreases |sections|
  {
    if sections != [] {
      assert forall k :: 0 <= k < |sections[0].1| ==> '\n' !in sections[0].1[k];
      ProcessSectionSound(acc, sections[0].0, sections[0].1, transcript);
      var p := ProcessSection(acc, sections[0].0, sections[0].1, transcript);
      if p.Ok? {
        ProcessAllSound(p.value, sections[1..], transcript);
      }
    }
  }

  /** A section's lines hold no line break, so its joined text is one line
      and names at most one timestamp; no topic of the section then starts
      after another, and every segment ends at the video end (or five
      minutes after its start when the transcript is empty). */
  lemma SectionOneKey(content: seq<string>)
    requires forall k :: 0 <= k < |content| ==> '\n' !in content[k]
    ensures |SectionTimes(content).Keys| <= 1
  {
    JoinNoBreak(content);
    OneLineOneKey(Join(" ", content));
  }

  lemma {:induction false} JoinNoBreak(content: seq<string>)
    requires forall k :: 0 <= k < |content| ==> '\n' !in content[k]
    ensures '\n' !in Join(" ", content)
    decreases |content|
  {
    if |content| > 1 {
      JoinNoBreak(content[1..]);
    }
  }

  // ---------------------------------------------------------------------
  // List items in the whole text

  /** `re.match(r'^\d+\.', line)`. */
  predicate Numbered(line: string) {
    var e := DigitRunEnd(line, 0);
    0 < e < |line| && line[e] == '.'
  }

  predicate Listed(line: string) {
    Numbered(line) || IsBullet(line)
  }

  /** `re.sub(r'-|\*|•\s*', '', s)`: every '-' and '*' anywhere is removed,
      and so is every '•' with the whitespace after it. */
  function Scrub(s: string): (r: string)
    ensures |r| <= |s|
    decreases |s|
  {
    if s == [] then []
    else if s[0] == '-' || s[0] == '*' then Scrub(s[1..])
    else if s[0] == '•' then Scrub(TrimStart(s[1..]))
    else [s[0]] + Scrub(s[1..])
  }

  /** `re.sub(r'^\d+\.|-|\*|•\s*', '', line).strip()`: the alternation binds
      loosest, so only the number is anchored at the start, and every hyphen,
      asterisk and bullet inside the text goes too. */
  function CleanListItem(line: string): string {
    if Numbered(line) then Strip(Scrub(line[DigitRunEnd(line, 0) + 1..])) else Strip(Scrub(line))
  }

  lemma {:induction false} ScrubRemovesMarks(s: string)
    ensures NoneIn(Scrub(s), {'-', '*', '•'})
    decreases |s|
  {
    if s != [] {
      if s[0] == '-' || s[0] == '*' {
        ScrubRemovesMarks(s[1..]);
      } else if s[0] == '•' {
        ScrubRemovesMarks(TrimStart(s[1..]));
      } else {
        ScrubRemovesMarks(s[1..]);
        assert Scrub(s) == [s[0]] + Scrub(s[1..]);
      }
    }
  }

  /** A cleaned list item holds no '-', '*' or '•' anywhere, not only at its
      start. */
  lemma CleanListItemMarks(line: string)
    ensures NoneIn(CleanListItem(line), {'-', '*', '•'})
  {
    var s := if Numbered(line) then Scrub(line[DigitRunEnd(line, 0) + 1..]) else Scrub(line);
    ScrubRemovesMarks(if Numbered(line) then line[DigitRunEnd(line, 0) + 1..] else line);
    var a, b := StripSlice(s);
    assert CleanListItem(line) == s[a..b];
  }

  /** "- e-mail" is cleaned to "email": the hyphen inside the word goes with
      the bullet. */
  lemma HyphenDropped()
    ensures Listed("- e-mail")
    ensures CleanListItem("- e-mail") == "email"
  {
    BulletLine();
    ScrubLine();
    StripEmail();
  }

  lemma BulletLine()
    ensures IsBullet("- e-mail") && !Numbered("- e-mail")
  {
    assert DigitRunEnd("- e-mail", 0) == 0;
  }

  lemma ScrubLine()
    ensures Scrub("- e-mail") == " email"
  {
    ScrubMail();
    assert Scrub("e-mail") == "email";
    assert Scrub(" e-mail") == " email";
  }

  lemma ScrubMail()
    ensures Scrub("-mail") == "mail"
  {
    assert Scrub("") == "";
    assert Scrub("l") == "l";
    assert Scrub("il") == "il";
    assert Scrub("ail") == "ail";
    assert Scrub("mail") == "mail";
  }

  lemma StripEmail()
    ensures Strip(" email") == "email"
  {
    var s := " email";
    assert IsSpace(s[0]) && s[1..] == "email";
    assert !IsSpace('e') && !IsSpace('l');
    assert TrimStart("email") == "email";
    assert TrimEnd("email") == "email";
  }

  /** An item of reasonable length: more than three and fewer than one hundred characters. */
  predicate Reasonable(item: string) {
    3 < |item| < 100
  }

  function RawItem(line: string): Option<string> {
    if Listed(line) && Reasonable(CleanListItem(line)) then Some(CleanListItem(line)) else None
  }

  /** The list items of reasonable length among the whole text's lines. */
  function RawTopics(lines: seq<string>): seq<string> {
    FilterMap(RawItem, lines)
  }

  /** The topics found in the whole text are exactly its list items of
      reasonable length. */
  lemma RawTopicsIff(lines: seq<string>, x: string)
    ensures x in RawTopics(lines) <==>
      exists j :: 0 <= j < |lines| && Listed(lines[j]) && Reasonable(CleanListItem(lines[j])) && CleanListItem(lines[j]) == x
  {
    FilterMapIff(RawItem, lines, x);
    if exists j :: 0 <= j < |lines| && Listed(lines[j]) && Reasonable(CleanListItem(lines[j])) && CleanListItem(lines[j]) == x {
      var j :| 0 <= j < |lines| && Listed(lines[j]) && Reasonable(CleanListItem(lines[j])) && CleanListItem(lines[j]) == x;
      assert RawItem(lines[j]) == Some(x);
    }
  }

  /** The loop over the whole text's lines. */
  method ListTopics(lines: seq<string>) returns (topics: seq<string>)
    ensures topics == RawTopics(lines)
  {
    topics := [];
    var i := 0;
    while i < |lines|
      invariant 0 <= i <= |lines|
      invariant topics + RawTopics(lines[i..]) == RawTopics(lines)
    {
      FilterMapStep(RawItem, lines, i, topics);
      var item := ListItem(lines[i]);
      if item.Some? {
        topics := topics + [item.value];
      } else {
        assert topics + [] == topics;
      }
      i := i + 1;
    }
    assert lines[i..] == [];
    assert topics + [] == topics;
  }

  /** One line of the loop: a numbered or bulleted line, once cleaned, is
      kept when its length is reasonable. */
  method ListItem(line: string) returns (item: Option<string>)
    ensures item == RawItem(line)
  {
    item := None;
    if Numbered(line) || IsBullet(line) {
      var cleaned := CleanListItem(line);
      if 3 < |cleaned| < 100 {
        item := Some(cleaned);
      }
    }
  }

  // ---------------------------------------------------------------------
  // The record

  /** The end of the summary written when none was found. */
  const ReviewRequest := " covers various topics that could not be automatically extracted. A manual review is recommended."

  function ManualReviewSummary(video: AnalysisVideo): string {
    "This video titled '" + video.title + "' by " + video.channel + ReviewRequest
  }

  function Take(s: seq<string>, n: nat): (r: seq<string>)
    ensures |r| <= n && |r| <= |s| && r == s[..|r|]
    ensures |r| == if |s| < n then |s| else n
  {
    if |s| <= n then s else s[..n]
  }

  /** The record made from what the sections gave. */
  function Assemble(a: Acc, lines: seq<string>, video: AnalysisVideo): AnalysisRecord {
    Record(video, if a.topics == [] then RawTopics(lines) else a.topics, a,
           if a.summary == SummarySentinel then ManualReviewSummary(video) else a.summary)
  }

  /** The record with the given topics and summary: at most seven topics and
      eight key points, the failure texts for empty lists, and the fixed
      audience and quality. */
  function Record(video: AnalysisVideo, topics: seq<string>, a: Acc, summary: string): AnalysisRecord {
    AnalysisRecord(
      video,
      if topics != [] then Take(topics, MaxTopics) else [TopicsFailed],
      a.segments,
      if a.points != [] then Take(a.points, MaxPoints) else [PointsFailed],
      a.sentiment,
      ["General audience"],
      a.level,
      5,
      [],
      summary,
      None,
      [],
      [])
  }

  /** `fallback_parsing(raw_text)` for the video the agent was given. */
  function Fallback(raw: string, video: AnalysisVideo): Outcome<AnalysisRecord> {
    var lines := Split(raw, {'\n'});
    match ProcessAll(Initial, ParseSections(lines), video.transcript)
    case Raised(m) => Raised(m)
    case Ok(a) => Ok(Assemble(a, lines, video))
  }

  /** The loop that reads the sections in order, stopping at the first
      error. */
  method ReadSections(sections: Sections, transcript: seq<Entry>) returns (r: Outcome<Acc>)
    ensures r == ProcessAll(Initial, sections, transcript)
  {
    var acc := Initial;
    var i := 0;
    while i < |sections|
      invariant 0 <= i <= |sections|
      invariant ProcessAll(acc, sections[i..], transcript) == ProcessAll(Initial, sections, transcript)
    {
      assert sections[i..][0] == sections[i] && sections[i..][1..] == sections[i + 1..];
      var next := ReadSection(acc, sections[i].0, sections[i].1, transcript);
      if next.Raised? {
        return Raised(next.message);
      }
      acc := next.value;
      i := i + 1;
    }
    assert sections[i..] == [];
    r := Ok(acc);
  }

  /** The record built from what the sections gave: the list items of the
      whole text stand in for missing topics, and the manual-review text
      for a missing summary. */
  method AssembleRecord(acc: Acc, lines: seq<string>, video: AnalysisVideo) returns (r: AnalysisRecord)
    ensures r == Assemble(acc, lines, video)
  {
    var topics := acc.topics;
    if topics == [] {
      topics := ListTopics(lines);
    }
    var summary := acc.summary;
    if summary == SummarySentinel {
      summary := ManualReviewSummary(video);
    }
    r := Record(video, topics, acc, summary);
  }

  /** The record always carries the video, one to seven topics, one to
      eight key points, the fixed audience, quality and empty lists, and a
      summary other than the failure text. */
  ghost predicate WellFormedRecord(r: AnalysisRecord, video: AnalysisVideo) {
    && r.originalData == video
    && 1 <= |r.mainTopics| <= MaxTopics
    && 1 <= |r.keyPoints| <= MaxPoints
    && r.targetAudience == ["General audience"] && r.contentQuality == 5
    && r.engagementHooks == [] && r.educationalValue.None? && r.contentWarnings == [] && r.relatedTopics == []
    && r.summary != SummarySentinel
  }

  lemma AssembleShape(a: Acc, lines: seq<string>, video: AnalysisVideo)
    requires Sound(a, video.transcript)
    ensures var r := Assemble(a, lines, video);
      && WellFormedRecord(r, video)
      && r.sentiment == a.sentiment && r.languageLevel == a.level && r.topicSegments == a.segments
  {
    assert |ManualReviewSummary(video)| > |SummarySentinel|;
  }

  /** The record of the fallback is well formed, its sentiment and level come
      from their vocabularies (or are "Unknown"), and every segment ends at
      the video's end, or five minutes after its start when there is no
      transcript: a section's timestamps come from one line, so no topic is
      ever found to start after another. The only error is a `None`
      duration on the last transcript entry. */
  lemma FallbackShape(raw: string, video: AnalysisVideo)
    ensures Fallback(raw, video).Raised? ==>
      video.transcript != [] && video.transcript[|video.transcript| - 1].duration == Null
    ensures Fallback(raw, video).Ok? ==> var r := Fallback(raw, video).value;
      && WellFormedRecord(r, video)
      && (r.sentiment == "Unknown" || exists k :: 0 <= k < |SentimentWords| && r.sentiment == Capitalize(SentimentWords[k]))
      && (r.languageLevel == "Unknown" || exists k :: 0 <= k < |LevelWords| && r.languageLevel == Capitalize(LevelWords[k]))
      && forall k :: 0 <= k < |r.topicSegments| ==> EndsWell(r.topicSegments[k], video.transcript)
  {
    var lines := Split(raw, {'\n'});
    var sections := ParseSections(lines);
    SectionsNoBreak(raw);
    ProcessAllSound(Initial, sections, video.transcript);
    var p := ProcessAll(Initial, sections, video.transcript);
    if p.Ok? {
      AssembleShape(p.value, lines, video);
    }
  }

  /** The record for an empty response: nothing extracted, the failure
      sentinels, and the summary that asks for a manual review. */
  function EmptyAnalysis(video: AnalysisVideo): AnalysisRecord {
    AnalysisRecord(video, [TopicsFailed], [], [PointsFailed], "Unknown", ["General audience"], "Unknown", 5, [],
                   ManualReviewSummary(video), None, [], [])
  }

  /** The record for an empty response is well formed and has no segments. */
  lemma EmptyAnalysisShape(video: AnalysisVideo)
    ensures WellFormedRecord(EmptyAnalysis(video), video) && EmptyAnalysis(video).topicSegments == []
  {
    assert |ManualReviewSummary(video)| > |SummarySentinel|;
  }

  lemma FallbackOfEmpty(video: AnalysisVideo)
    ensures Fallback("", video) == Ok(EmptyAnalysis(video))
  {
    EmptyResponse();
    assert ProcessAll(Initial, [], video.transcript) == Ok(Initial);
    EmptyAssembled(video);
  }

  lemma EmptyAssembled(video: AnalysisVideo)
    requires RawTopics([""]) == []
    ensures Assemble(Initial, [""], video) == EmptyAnalysis(video)
  {
  }

  /** An empty response is one empty line, which is neither a header nor a
      list item. */
  lemma EmptyResponse()
    ensures Split("", {'\n'}) == [""]
    ensures ParseSections([""]) == [] && RawTopics([""]) == []
  {
    assert FirstIn("", {'\n'}, 0) == 0;
    BlankHasNoSections();
    assert !Listed("") by { assert DigitRunEnd("", 0) == 0; }
    assert RawItem("") == None;
    assert RawTopics([""]) == FilterMap(RawItem, [""][1..]);
  }
}
