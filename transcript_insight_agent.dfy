/** The transcript-insights agent: it asks the model for a JSON summary of a
    transcript, picks the JSON out of the model's text (a "```json" fenced
    block first, then the span from the first '{' to the last '}'), and
    falls back to pulling `"summary"` and `"name"` values out of the text
    with a regular expression when the JSON does not decode. The model's
    reply and `json.loads` are inputs. */
module InsightAgent {
  import opened Common
  import opened Text
  import opened VideoRecords
  import opened BaseAgent

  const DefaultInsightsModel := "mistral:latest"
  const InsightTemperature := 0.1
  const InsightNumCtx := 4096
  const NoSummary := "Summary extraction failed"
  const FallbackDescription := "Extracted via fallback parsing"
  const ErrorPrefix := "Error: "
  const Fence := "```json"
  const FenceEnd := "```"

  datatype Mention = Mention(name: string, description: string)

  /** The agent's result: the insights about a video, or the record built
      from the video alone (`VideoAnalysisData(original_data=...)`). */
  datatype InsightRecord =
    | Insight(original: VideoData, summary: string, topics: seq<string>, points: seq<string>, mentions: seq<Mention>)
    | Defaulted(original: VideoData)

  // ---------------------------------------------------------------------
  // The model's answer

  /** The message of the `HTTPStatusError` for a status outside 200..299. */
  function StatusError(status: int): string {
    "HTTP status " + IntToString(status)
  }

  /** `_get_model_response` after the request: a failed request, a status
      outside 200..299, a body that is not JSON and a body that is not an
      object all give "Error: " and the message; otherwise the "response"
      value, "" when there is none (which need not be a string). */
  function ModelResponse(reply: Outcome<HttpReply>): Json {
    match reply
    case Raised(m) => JStr(ErrorPrefix + m)
    case Ok(h) =>
      if !(200 <= h.status < 300) then JStr(ErrorPrefix + StatusError(h.status))
      else match h.body
        case Raised(m) => JStr(ErrorPrefix + m)
        case Ok(JObject(f)) => Get(f, "response", JStr(""))
        case Ok(_) => JStr(ErrorPrefix + NoGet)
  }

  /** The model call never raises: every failure becomes a text that starts
      with "Error: ", and a successful call gives the "response" value. */
  lemma ModelResponseShape(reply: Outcome<HttpReply>)
    ensures var r := ModelResponse(reply);
      && (reply.Raised? ==> r == JStr(ErrorPrefix + reply.message))
      && (reply.Ok? && reply.value.status == 200 && reply.value.body.Ok? && reply.value.body.value.JObject? ==>
            r == Get(reply.value.body.value.fields, "response", JStr("")))
      && (reply.Ok? && !(200 <= reply.value.status < 300) ==> r.JStr? && StartsWith(r.s, ErrorPrefix))
  {
    if reply.Ok? && !(200 <= reply.value.status < 300) {
      assert (ErrorPrefix + StatusError(reply.value.status))[..|ErrorPrefix|] == ErrorPrefix;
    }
  }

  // ---------------------------------------------------------------------
  // Picking the JSON out of the answer

  /** `re.search(r'```json\s*([\s\S]*?)\s*```', s)`: after the first
      "```json" and the whitespace that follows it, the text up to the next
      "```", without its trailing whitespace. A later "```json" cannot
      match where the first does not, since its own backquotes would close
      the first. */
  function FenceSpan(s: string): Option<string> {
    match FindFrom(s, Fence, 0)
    case None => None
    case Some(p) =>
      var g := SpaceRunEnd(s, p + |Fence|);
      match FindFrom(s, FenceEnd, g)
      case None => None
      case Some(q) => Some(TrimEnd(s[g..q]))
  }

  /** `re.search(r'({[\s\S]*})', s)`: from the first '{' to the last '}',
      when that one comes later. */
  function BraceSpan(s: string): Option<string> {
    var p := FirstIn(s, {'{'}, 0);
    if p == |s| then None
    else match LastIndex(s, '}')
      case None => None
      case Some(q) => if q > p then Some(s[p..q + 1]) else None
  }

  /** `_parse_json_response` before `json.loads`: the fenced block, else the
      brace span, else the whole text. */
  function JsonSpan(s: string): string {
    match FenceSpan(s)
    case Some(t) => t
    case None =>
      match BraceSpan(s)
      case Some(t) => t
      case None => s
  }

  /** A text without backquotes has no fenced block. */
  lemma NoFence(s: string)
    requires '`' !in s
    ensures FenceSpan(s) == None
  {
    forall j | 0 <= j ensures !OccursAt(s, Fence, j) {
      if j + |Fence| <= |s| {
        assert s[j..j + |Fence|][0] == s[j];
      }
    }
  }

  /** Where the pieces of a fenced answer sit. */
  lemma FencedLayout(pre: string, body: string, post: string)
    ensures var s, p := pre + Fence + "\n" + body + "\n" + FenceEnd + post, |pre|;
      && |s| == p + 12 + |body| + |post|
      && (forall j :: 0 <= j < p ==> s[j] == pre[j])
      && s[p..p + 7] == Fence && s[p + 7] == '\n'
      && s[p + 8..p + 8 + |body|] == body
      && s[p + 8 + |body|] == '\n' && s[p + 9 + |body|..p + 12 + |body|] == FenceEnd
  {
    var s := pre + Fence + "\n" + body + "\n" + FenceEnd + post;
    Middle(pre, Fence, "\n" + body + "\n" + FenceEnd + post);
    assert s == pre + Fence + ("\n" + body + "\n" + FenceEnd + post);
    Middle(pre + Fence + "\n", body, "\n" + FenceEnd + post);
    assert s == (pre + Fence + "\n") + body + ("\n" + FenceEnd + post);
    Middle(pre + Fence + "\n" + body + "\n", FenceEnd, post);
  }

  /** The leftmost occurrence of a pattern at or after `i` is at `p` when
      it occurs there and no character in between starts it. */
  lemma FirstOccurrence(s: string, pat: string, i: nat, p: nat)
    requires pat != [] && i <= p && OccursAt(s, pat, p)
    requires forall j :: i <= j < p ==> s[j] != pat[0]
    ensures FindFrom(s, pat, i) == Some(p)
  {
    forall j | i <= j < p ensures !OccursAt(s, pat, j) {
      if j + |pat| <= |s| {
        assert s[j..j + |pat|][0] == s[j];
      }
    }
    FindFromAt(s, pat, i, p);
  }

  /** The closing "```" of a fenced body is the first one after it. */
  lemma ClosingFence(s: string, p: nat, body: string)
    requires |s| >= p + 12 + |body|
    requires s[p + 8..p + 8 + |body|] == body
    requires s[p + 8 + |body|] == '\n' && s[p + 9 + |body|..p + 12 + |body|] == FenceEnd
    requires '`' !in body
    ensures FindFrom(s, FenceEnd, p + 8) == Some(p + 9 + |body|)
  {
    forall j | p + 8 <= j < p + 9 + |body| ensures s[j] != '`' {
      if j < p + 8 + |body| {
        assert s[j] == s[p + 8..p + 8 + |body|][j - p - 8];
      }
    }
    FirstOccurrence(s, FenceEnd, p + 8, p + 9 + |body|);
  }

  /** A fenced block is read from a text laid out as `FencedLayout` says. */
  lemma FencedLaidOut(s: string, p: nat, body: string)
    requires |s| >= p + 12 + |body|
    requires forall j :: 0 <= j < p ==> s[j] != '`'
    requires s[p..p + 7] == Fence && s[p + 7] == '\n'
    requires s[p + 8..p + 8 + |body|] == body
    requires s[p + 8 + |body|] == '\n' && s[p + 9 + |body|..p + 12 + |body|] == FenceEnd
    requires '`' !in body && body != [] && !IsSpace(body[0]) && !IsSpace(body[|body| - 1])
    ensures FenceSpan(s) == Some(body)
  {
    var g, q := p + 8, p + 9 + |body|;
    FirstOccurrence(s, Fence, 0, p);
    assert |Fence| == 7;
    assert s[p + 8] == s[p + 8..p + 8 + |body|][0];
    AfterNewline(s, p + |Fence|, body[0]);
    ClosingFence(s, p, body);
    BodyThenNewline(s, g, q, body);
    FenceSpanAt(s, p, g, q);
  }

  /** The fenced block is read from where the pieces were found. */
  lemma FenceSpanAt(s: string, p: nat, g: nat, q: nat)
    requires p + |Fence| <= g <= q <= |s|
    requires FindFrom(s, Fence, 0) == Some(p) && SpaceRunEnd(s, p + |Fence|) == g
    requires FindFrom(s, FenceEnd, g) == Some(q)
    ensures FenceSpan(s) == Some(TrimEnd(s[g..q]))
  {
  }

  /** The whitespace after a line break ends at a non-space character. */
  lemma AfterNewline(s: string, i: nat, c: char)
    requires i + 1 < |s| && s[i] == '\n' && s[i + 1] == c && !IsSpace(c)
    ensures SpaceRunEnd(s, i) == i + 1
  {
    assert SpaceRunEnd(s, i) == SpaceRunEnd(s, i + 1);
  }

  /** A body that ends in a non-space, followed by a line break, is trimmed
      back to itself. */
  lemma BodyThenNewline(s: string, g: nat, q: nat, body: string)
    requires q == g + |body| + 1 <= |s| && s[g..g + |body|] == body && s[g + |body|] == '\n'
    requires body != [] && !IsSpace(body[|body| - 1])
    ensures TrimEnd(s[g..q]) == body
  {
    assert s[g..q] == body + "\n";
    TrimEndAfter(body, "\n");
  }

  /** A "```json" block is picked out of the answer whatever surrounds it,
      as long as no backquote comes before it. */
  lemma FencedBody(pre: string, body: string, post: string)
    requires '`' !in pre && '`' !in body
    requires body != [] && !IsSpace(body[0]) && !IsSpace(body[|body| - 1])
    ensures JsonSpan(pre + Fence + "\n" + body + "\n" + FenceEnd + post) == body
  {
    var s := pre + Fence + "\n" + body + "\n" + FenceEnd + post;
    FencedLayout(pre, body, post);
    FencedLaidOut(s, |pre|, body);
  }

  /** Without backquotes, the span from the only '{' before the body to the
      only '}' after it is picked. */
  lemma BracedBody(pre: string, body: string, post: string)
    requires '`' !in pre && '`' !in body && '`' !in post
    requires '{' !in pre && '}' !in post
    ensures JsonSpan(pre + "{" + body + "}" + post) == "{" + body + "}"
  {
    var s := pre + "{" + body + "}" + post;
    BracedLayout(pre, body, post);
    NoFence(s);
    BracedLaidOut(s, |pre|, |pre| + 1 + |body|);
  }

  /** Where the braces of a braced answer sit. */
  lemma BracedLayout(pre: string, body: string, post: string)
    requires '{' !in pre && '}' !in post
    ensures var s, p, q := pre + "{" + body + "}" + post, |pre|, |pre| + 1 + |body|;
      && |s| == q + 1 + |post|
      && (forall j :: 0 <= j < p ==> s[j] != '{')
      && s[p] == '{' && s[q] == '}'
      && (forall j :: q < j < |s| ==> s[j] != '}')
      && s[p..q + 1] == "{" + body + "}"
  {
    var s := pre + "{" + body + "}" + post;
    var q := |pre| + 1 + |body|;
    Middle(pre, "{" + body + "}", post);
    forall j | 0 <= j < |pre| ensures s[j] != '{' {
      assert s[j] == pre[j];
    }
    assert s[q] == '}';
    forall j | q < j < |s| ensures s[j] != '}' {
      assert s[j] == post[j - q - 1];
    }
  }

  /** Without a fenced block, the span runs from the first '{' to the last
      '}'. */
  lemma BracedLaidOut(s: string, p: nat, q: nat)
    requires p < q < |s| && FenceSpan(s) == None
    requires (forall j :: 0 <= j < p ==> s[j] != '{') && s[p] == '{'
    requires s[q] == '}' && (forall j :: q < j < |s| ==> s[j] != '}')
    ensures JsonSpan(s) == s[p..q + 1]
  {
    FirstInFrom(s, {'{'}, 0, p);
  }

  /** Without a fence or a brace, the whole answer is decoded. */
  lemma WholeAnswer(s: string)
    requires '`' !in s && '{' !in s
    ensures JsonSpan(s) == s
  {
    NoFence(s);
  }

  // ---------------------------------------------------------------------
  // The regular-expression fallback

  /** The pattern `"key"\s*:\s*"([^"]+)"` matched at the start of `t`: the
      bounds of the captured value, which runs to the first quote after the
      opening one and is not empty. */
  function KeyValue(t: string, key: string): (r: Option<(nat, nat)>)
    ensures r.Some? ==> 0 < r.value.0 < r.value.1 < |t| && t[r.value.1] == '"'
    ensures r.Some? ==> forall j :: r.value.0 <= j < r.value.1 ==> t[j] != '"'
    ensures r.Some? ==> t != [] && t[0] == '"'
  {
    var quoted := "\"" + key + "\"";
    if !StartsWith(t, quoted) then None
    else
      var a := SpaceRunEnd(t, |quoted|);
      if a == |t| || t[a] != ':' then None
      else
        var b := SpaceRunEnd(t, a + 1);
        if b == |t| || t[b] != '"' then None
        else
          var c := FirstIn(t, {'"'}, b + 1);
          if c == |t| || c == b + 1 then None
          else
            assert t[0] == t[..|quoted|][0];
            Some((b + 1, c))
  }

  /** `re.search`: the value of the leftmost match at or after `p`. */
  function FirstKeyValue(s: string, key: string, p: nat): (r: Option<string>)
    requires p <= |s|
    ensures r.Some? ==> r.value != [] && '"' !in r.value
    decreases |s| - p
  {
    match KeyValue(s[p..], key)
    case Some(v) =>
      var t := s[p..];
      assert forall j :: 0 <= j < v.1 - v.0 ==> t[v.0..v.1][j] == t[v.0 + j];
      Some(t[v.0..v.1])
    case None => if p == |s| then None else FirstKeyValue(s, key, p + 1)
  }

  /** `re.findall`: the values of the matches in order, each search resuming
      after the previous match's closing quote. */
  function AllKeyValues(s: string, key: string, p: nat): (r: seq<string>)
    requires p <= |s|
    ensures forall k :: 0 <= k < |r| ==> r[k] != [] && '"' !in r[k]
    decreases |s| - p
  {
    match KeyValue(s[p..], key)
    case Some(v) =>
      var t := s[p..];
      assert forall j :: 0 <= j < v.1 - v.0 ==> t[v.0..v.1][j] == t[v.0 + j];
      [t[v.0..v.1]] + AllKeyValues(s, key, p + v.1 + 1)
    case None => if p == |s| then [] else AllKeyValues(s, key, p + 1)
  }

  /** A key and its value as a JSON encoder writes them. */
  function Entry(key: string, value: string): string {
    "\"" + key + "\": \"" + value + "\""
  }

  /** The pattern matches an entry at its start and captures its value. */
  lemma KeyValueOfEntry(key: string, value: string, post: string)
    requires value != [] && '"' !in value
    ensures KeyValue(Entry(key, value) + post, key) == Some((|key| + 5, |key| + 5 + |value|))
  {
    EntryLayout(key, value, post);
    KeyValueLaidOut(Entry(key, value) + post, key, |value|);
  }

  /** Where the pieces of an entry sit. */
  lemma EntryLayout(key: string, value: string, post: string)
    requires '"' !in value
    ensures var t, k := Entry(key, value) + post, |key|;
      && |t| == k + 6 + |value| + |post|
      && t[..k + 2] == "\"" + key + "\""
      && t[k + 2] == ':' && t[k + 3] == ' ' && t[k + 4] == '"'
      && (forall j :: k + 5 <= j < k + 5 + |value| ==> t[j] != '"')
      && t[k + 5 + |value|] == '"'
  {
    var t := Entry(key, value) + post;
    var quoted := "\"" + key + "\"";
    var k := |key|;
    assert t == quoted + ": \"" + value + ("\"" + post);
    Middle(quoted + ": \"", value, "\"" + post);
    assert t[..|quoted|] == quoted;
    forall j | k + 5 <= j < k + 5 + |value| ensures t[j] != '"' {
      assert t[j] == value[j - k - 5];
    }
  }

  /** The pattern on a text laid out as an entry whose value has `n`
      characters. */
  lemma KeyValueLaidOut(t: string, key: string, n: nat)
    requires n > 0
    requires var k := |key|;
      && |t| > k + 5 + n
      && t[..k + 2] == "\"" + key + "\""
      && t[k + 2] == ':' && t[k + 3] == ' ' && t[k + 4] == '"'
      && (forall j :: k + 5 <= j < k + 5 + n ==> t[j] != '"')
      && t[k + 5 + n] == '"'
    ensures KeyValue(t, key) == Some((|key| + 5, |key| + 5 + n))
  {
    var k := |key|;
    assert StartsWith(t, "\"" + key + "\"");
    assert SpaceRunEnd(t, k + 2) == k + 2;
    assert SpaceRunEnd(t, k + 4) == k + 4;
    FirstInFrom(t, {'"'}, k + 5, k + 5 + n);
  }

  /** Searching from a position where nothing matches is searching from the
      next one. */
  lemma {:induction false} FirstKeyValueSkip(s: string, key: string, i: nat, p: nat)
    requires i <= p <= |s|
    requires forall j :: i <= j < p ==> KeyValue(s[j..], key).None?
    ensures FirstKeyValue(s, key, i) == FirstKeyValue(s, key, p)
    decreases p - i
  {
    if i < p {
      FirstKeyValueSkip(s, key, i + 1, p);
    }
  }

  lemma {:induction false} AllKeyValuesSkip(s: string, key: string, i: nat, p: nat)
    requires i <= p <= |s|
    requires forall j :: i <= j < p ==> KeyValue(s[j..], key).None?
    ensures AllKeyValues(s, key, i) == AllKeyValues(s, key, p)
    decreases p - i
  {
    if i < p {
      AllKeyValuesSkip(s, key, i + 1, p);
    }
  }

  /** What follows a prefix is searched as if the prefix were not there. */
  lemma {:induction false} AllKeyValuesShift(e: string, t: string, key: string, p: nat)
    requires p <= |t|
    ensures AllKeyValues(e + t, key, |e| + p) == AllKeyValues(t, key, p)
    decreases |t| - p
  {
    assert (e + t)[|e| + p..] == t[p..];
    match KeyValue(t[p..], key)
    case Some(v) => AllKeyValuesShift(e, t, key, p + v.1 + 1);
    case None =>
      if p < |t| {
        AllKeyValuesShift(e, t, key, p + 1);
      }
  }

  lemma ShiftedStart(e: string, t: string, key: string)
    ensures AllKeyValues(e + t, key, |e|) == AllKeyValues(t, key, 0)
  {
    AllKeyValuesShift(e, t, key, 0);
  }

  /** No match starts where there is no quote. */
  lemma NoQuoteNoMatch(s: string, key: string, i: nat, p: nat)
    requires i <= p <= |s|
    requires forall j :: i <= j < p ==> s[j] != '"'
    ensures forall j :: i <= j < p ==> KeyValue(s[j..], key).None?
  {
    forall j | i <= j < p ensures KeyValue(s[j..], key).None? {
      assert s[j..][0] == s[j];
    }
  }

  /** Where an entry's value sits. */
  lemma EntryValue(key: string, value: string, post: string)
    ensures |Entry(key, value)| == |key| + 6 + |value|
    ensures (Entry(key, value) + post)[|key| + 5..|key| + 5 + |value|] == value
  {
    Middle("\"" + key + "\": \"", value, "\"" + post);
    assert Entry(key, value) + post == "\"" + key + "\": \"" + value + ("\"" + post);
  }

  /** An entry where the search starts is the first match. */
  lemma FirstKeyValueAtEntry(s: string, p: nat, key: string, value: string, post: string)
    requires p <= |s| && s[p..] == Entry(key, value) + post
    requires value != [] && '"' !in value
    ensures FirstKeyValue(s, key, p) == Some(value)
  {
    KeyValueOfEntry(key, value, post);
    EntryValue(key, value, post);
  }

  /** An entry where the search starts is the next value found, and the
      search resumes right after it. */
  lemma AllKeyValuesAtEntry(s: string, p: nat, key: string, value: string, post: string)
    requires p <= |s| && s[p..] == Entry(key, value) + post
    requires value != [] && '"' !in value
    ensures p + |Entry(key, value)| <= |s|
    ensures AllKeyValues(s, key, p) == [value] + AllKeyValues(s, key, p + |Entry(key, value)|)
  {
    KeyValueOfEntry(key, value, post);
    EntryValue(key, value, post);
  }

  /** The summary after a quote-free preamble is the entry's value. */
  lemma SummaryFound(pre: string, value: string, post: string)
    requires '"' !in pre && value != [] && '"' !in value
    ensures FirstKeyValue(pre + Entry("summary", value) + post, "summary", 0) == Some(value)
  {
    var s := pre + Entry("summary", value) + post;
    assert s == pre + (Entry("summary", value) + post);
    forall j | 0 <= j < |pre| ensures s[j] != '"' {
      assert s[j] == pre[j];
    }
    NoQuoteNoMatch(s, "summary", 0, |pre|);
    FirstKeyValueSkip(s, "summary", 0, |pre|);
    FirstKeyValueAtEntry(s, |pre|, "summary", value, post);
  }

  /** A text without quotes has no summary. */
  lemma {:induction false} NoQuoteNoSummary(s: string, p: nat)
    requires p <= |s| && '"' !in s
    ensures FirstKeyValue(s, "summary", p) == None
    decreases |s| - p
  {
    if p < |s| {
      assert s[p..][0] == s[p];
      NoQuoteNoSummary(s, p + 1);
    }
  }

  /** Entries with the same key, each followed by a quote-free separator. */
  function Entries(key: string, values: seq<string>, sep: string): string {
    if values == [] then "" else Entry(key, values[0]) + sep + Entries(key, values[1..], sep)
  }

  /** An entry and a quote-free separator give the entry's value, then
      whatever the rest gives. */
  lemma AllKeyValuesStep(key: string, value: string, sep: string, rest: string)
    requires '"' !in sep && value != [] && '"' !in value
    ensures AllKeyValues(Entry(key, value) + sep + rest, key, 0) == [value] + AllKeyValues(rest, key, 0)
  {
    var e := Entry(key, value);
    var s := e + sep + rest;
    assert AllKeyValues(s, key, 0) == [value] + AllKeyValues(s, key, |e|) by {
      assert s[0..] == e + (sep + rest);
      AllKeyValuesAtEntry(s, 0, key, value, sep + rest);
    }
    SkipSeparator(e, sep, rest, key);
  }

  /** A quote-free separator after a prefix is skipped, and what follows is
      searched as if nothing came before it. */
  lemma SkipSeparator(e: string, sep: string, rest: string, key: string)
    requires '"' !in sep
    ensures AllKeyValues(e + sep + rest, key, |e|) == AllKeyValues(rest, key, 0)
  {
    var s := e + sep + rest;
    var m := |e + sep|;
    assert AllKeyValues(s, key, |e|) == AllKeyValues(s, key, m) by {
      forall j | |e| <= j < m ensures s[j] != '"' {
        assert s[j] == sep[j - |e|];
      }
      NoQuoteNoMatch(s, key, |e|, m);
      AllKeyValuesSkip(s, key, |e|, m);
    }
    ShiftedStart(e + sep, rest, key);
  }

  /** Every value of such a list of entries is found, in order. */
  lemma {:induction false} AllEntriesFound(key: string, values: seq<string>, sep: string)
    requires '"' !in sep
    requires forall k :: 0 <= k < |values| ==> values[k] != [] && '"' !in values[k]
    ensures AllKeyValues(Entries(key, values, sep), key, 0) == values
  {
    if values != [] {
      AllKeyValuesStep(key, values[0], sep, Entries(key, values[1..], sep));
      AllEntriesFound(key, values[1..], sep);
    }
  }

  /** `fallback_parsing`'s record: the first summary value or "Summary
      extraction failed", a mention per "name" value, and no topics or
      key points. */
  function FallbackRecord(video: VideoData, raw: string): InsightRecord {
    var names := AllKeyValues(raw, "name", 0);
    Insight(video, FirstKeyValue(raw, "summary", 0).GetOr(NoSummary), [], [],
            seq(|names|, i requires 0 <= i < |names| => Mention(names[i], FallbackDescription)))
  }

  /** The fallback lists every name the model wrote as a JSON entry, in
      order, with the fixed description, and no topics or key points. */
  lemma FallbackNames(video: VideoData, names: seq<string>, sep: string)
    requires '"' !in sep
    requires forall k :: 0 <= k < |names| ==> names[k] != [] && '"' !in names[k]
    ensures var r := FallbackRecord(video, Entries("name", names, sep));
      && r.original == video && r.topics == [] && r.points == []
      && |r.mentions| == |names|
      && forall k :: 0 <= k < |names| ==> r.mentions[k] == Mention(names[k], FallbackDescription)
  {
    AllEntriesFound("name", names, sep);
  }

  /** Without any quote the fallback finds no summary and no names. */
  lemma FallbackWithoutQuotes(video: VideoData, raw: string)
    requires '"' !in raw
    ensures FallbackRecord(video, raw) == Insight(video, NoSummary, [], [], [])
  {
    NoQuoteNoSummary(raw, 0);
    NoQuoteNoMatch(raw, "name", 0, |raw|);
    AllKeyValuesSkip(raw, "name", 0, |raw|);
  }

  // ---------------------------------------------------------------------
  // The decoded insights

  /** Every element mapped, or nothing when one of them fails. */
  function MapAll<A, B>(f: A -> Option<B>, xs: seq<A>): (r: Option<seq<B>>)
    ensures r.Some? <==> forall i :: 0 <= i < |xs| ==> f(xs[i]).Some?
    ensures r.Some? ==> |r.value| == |xs| && forall i :: 0 <= i < |xs| ==> r.value[i] == f(xs[i]).value
  {
    if xs == [] then Some([])
    else match f(xs[0])
      case None => None
      case Some(y) =>
        match MapAll(f, xs[1..])
        case None => None
        case Some(ys) => Some([y] + ys)
  }

  function AsString(j: Json): Option<string> {
    if j.JStr? then Some(j.s) else None
  }

  /** A list of strings, as the record's `List[str]` fields accept. */
  function StringList(j: Json): Option<seq<string>> {
    if j.JArray? then MapAll(AsString, j.items) else None
  }

  /** `SoftwareMention(name=item.get("name", ""), description=item.get("description", ""))`. */
  function MentionOf(item: Json): Option<Mention> {
    if !item.JObject? then None
    else
      var name := Get(item.fields, "name", JStr(""));
      var description := Get(item.fields, "description", JStr(""));
      if name.JStr? && description.JStr? then Some(Mention(name.s, description.s)) else None
  }

  /** The record built from the decoded answer, or nothing when the answer
      did not decode, is not an object, or holds a value of the wrong kind. */
  function Insights(video: VideoData, decoded: Option<Json>): Option<InsightRecord> {
    if decoded.None? || !decoded.value.JObject? then None
    else
      var f := decoded.value.fields;
      var summary := Get(f, "summary", JStr(""));
      var topics := StringList(Get(f, "main_topics", JArray([])));
      var points := StringList(Get(f, "key_points", JArray([])));
      var mentions :=
        match Iterated(Get(f, "software_mentions", JArray([])))
        case Raised(_) => None
        case Ok(items) => MapAll(MentionOf, items);
      if summary.JStr? && topics.Some? && points.Some? && mentions.Some? then
        Some(Insight(video, summary.s, topics.value, points.value, mentions.value))
      else None
  }

  /** The transcript joined with spaces for the prompt; a segment whose text
      is not a string makes the join raise. */
  function TranscriptText(transcript: seq<Segment>): (r: Option<string>)
    ensures r.Some? <==> forall i :: 0 <= i < |transcript| ==> transcript[i].text.JStr?
  {
    match MapAll((g: Segment) => AsString(g.text), transcript)
    case None => None
    case Some(texts) => Some(Join(" ", texts))
  }

  /** `run(video_data)`: no transcript gives the default record; otherwise
      the answer is decoded into insights, or read by the fallback parser
      when that fails. An answer that is not a string makes the fallback
      raise too, which gives the default record. */
  function InsightRun(video: VideoData, reply: Outcome<HttpReply>, decode: string -> Option<Json>): InsightRecord {
    if video.transcript == [] || TranscriptText(video.transcript).None? then Defaulted(video)
    else match ModelResponse(reply)
      case JStr(text) =>
        (match Insights(video, decode(JsonSpan(text)))
          case Some(r) => r
          case None => FallbackRecord(video, text))
      case _ => Defaulted(video)
  }

  /** The record is always about the given video; an empty transcript
      never reaches the model; a decoded answer with the right kinds of
      values is taken field by field with "" and [] for what is missing;
      anything else goes to the fallback parser with the same text. */
  lemma InsightRunShape(video: VideoData, reply: Outcome<HttpReply>, decode: string -> Option<Json>)
    ensures var r := InsightRun(video, reply, decode);
      && r.original == video
      && (video.transcript == [] ==> r == Defaulted(video))
      && (video.transcript != [] && TranscriptText(video.transcript).Some? && ModelResponse(reply).JStr? ==>
            var text := ModelResponse(reply).s;
            && (Insights(video, decode(JsonSpan(text))).Some? ==> r == Insights(video, decode(JsonSpan(text))).value)
            && (Insights(video, decode(JsonSpan(text))).None? ==> r == FallbackRecord(video, text)))
  {
  }

  /** A decoded object with a string summary and no lists gives that
      summary and empty lists. */
  lemma SummaryOnly(video: VideoData, summary: string)
    ensures Insights(video, Some(JObject(map["summary" := JStr(summary)])))
         == Some(Insight(video, summary, [], [], []))
  {
    var f := map["summary" := JStr(summary)];
    assert "main_topics" !in f && "key_points" !in f && "software_mentions" !in f;
  }

  /** A mentions value that is not a list, an empty text or an empty
      object cannot be iterated into mentions (iterating raises), so the
      decoded answer is rejected and the fallback parser takes over. */
  lemma MentionsMustBeAList(video: VideoData, f: map<string, Json>)
    requires "software_mentions" in f
    requires var m := f["software_mentions"]; !m.JArray? && m != JStr("") && m != JObject(map[])
    ensures Insights(video, Some(JObject(f))) == None
  {
  }

  /** An empty text or an empty object where the mentions belong iterates
      as nothing, so the answer reads exactly as it would with an empty
      list of mentions. */
  lemma EmptyMentionsLikeEmptyList(video: VideoData, f: map<string, Json>)
    requires "software_mentions" in f
    requires f["software_mentions"] == JStr("") || f["software_mentions"] == JObject(map[])
    ensures Insights(video, Some(JObject(f)))
         == Insights(video, Some(JObject(f["software_mentions" := JArray([])])))
  {
    var g := f["software_mentions" := JArray([])];
    assert Get(g, "summary", JStr("")) == Get(f, "summary", JStr(""));
    assert Get(g, "main_topics", JArray([])) == Get(f, "main_topics", JArray([]));
    assert Get(g, "key_points", JArray([])) == Get(f, "key_points", JArray([]));
  }

  class TranscriptInsightsAgent {
    const modelName: string
    const baseUrl: string
    const temperature: real
    const numCtx: int
    /** The video of the last run; unset until `run` is called. */
    var inputData: Option<VideoData>

    constructor(modelName: string, baseUrl: string, temperature: real)
      ensures this.modelName == modelName && this.baseUrl == baseUrl && this.temperature == temperature
      ensures numCtx == InsightNumCtx && inputData.None?
    {
      this.modelName := modelName;
      this.baseUrl := baseUrl;
      this.temperature := temperature;
      numCtx := InsightNumCtx;
      inputData := None;
    }

    /** `fallback_parsing(raw_text)`: the summary is searched for, and a
        mention is appended for every "name" value. */
    method FallbackParsing(raw: string) returns (r: InsightRecord)
      requires inputData.Some?
      ensures r == FallbackRecord(inputData.value, raw)
    {
      var summary := FirstKeyValue(raw, "summary", 0).GetOr(NoSummary);
      var names := AllKeyValues(raw, "name", 0);
      var mentions: seq<Mention> := [];
      for i := 0 to |names|
        invariant |mentions| == i
        invariant forall k :: 0 <= k < i ==> mentions[k] == Mention(names[k], FallbackDescription)
      {
        mentions := mentions + [Mention(names[i], FallbackDescription)];
      }
      r := Insight(inputData.value, summary, [], [], mentions);
    }

    /** `run(video_data)`: the video is stored, then the answer is decoded or
        handed to the fallback parser. */
    method Run(video: VideoData, reply: Outcome<HttpReply>, decode: string -> Option<Json>) returns (r: InsightRecord)
      modifies this
      ensures inputData == Some(video)
      ensures r == InsightRun(video, reply, decode)
    {
      inputData := Some(video);
      if video.transcript == [] {
        return Defaulted(video);
      }
      var prompt := TranscriptText(video.transcript);
      if prompt.None? {
        return Defaulted(video);
      }
      var response := ModelResponse(reply);
      if !response.JStr? {
        return Defaulted(video);
      }
      var insights := Insights(video, decode(JsonSpan(response.s)));
      if insights.Some? {
        return insights.value;
      }
      r := FallbackParsing(response.s);
    }
  }
}
