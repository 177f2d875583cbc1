/** The transcript service: the video id read out of a YouTube URL, and the
    guard that skips the transcript fetch when there is none. The URL is
    split the way Python's `urllib.parse.urlparse` splits it, and the query
    the way `parse_qs` reads it, without percent-decoding. */
module TranscriptService {
  import opened Common
  import opened Text

  /** The six parts `urlparse` returns. */
  datatype Url = Url(scheme: string, netloc: string, path: string, params: string, query: string, fragment: string)

  /** The characters `urlsplit` strips from the front of a URL: the C0
      controls and the space. */
  predicate IsC0OrSpace(c: char) {
    c <= ' '
  }

  function TrimC0(s: string): (r: string)
    ensures |r| <= |s| && r == s[|s| - |r|..]
    ensures r == [] || !IsC0OrSpace(r[0])
  {
    if s != [] && IsC0OrSpace(s[0]) then
      var r := TrimC0(s[1..]);
      assert s[1..][|s| - 1 - |r|..] == s[|s| - |r|..];
      r
    else s
  }

  /** Everything `TrimC0` removes is a C0 control or a space. */
  lemma {:induction false} TrimC0Removes(s: string)
    ensures forall i :: 0 <= i < |s| - |TrimC0(s)| ==> IsC0OrSpace(s[i])
    decreases |s|
  {
    if s != [] && IsC0OrSpace(s[0]) {
      TrimC0Removes(s[1..]);
      forall i | 1 <= i < |s| - |TrimC0(s)| ensures IsC0OrSpace(s[i]) {
        assert s[i] == s[1..][i - 1];
      }
    }
  }

  /** The characters `urlsplit` removes wherever they occur. */
  const Unsafe: set<char> := {'\t', '\r', '\n'}

  function RemoveUnsafe(s: string): (r: string)
    ensures |r| <= |s|
    ensures NoneIn(r, Unsafe)
    ensures NoneIn(s, Unsafe) ==> r == s
  {
    if s == [] then []
    else (if s[0] in Unsafe then [] else [s[0]]) + RemoveUnsafe(s[1..])
  }

  predicate IsAsciiAlpha(c: char) {
    'a' <= c <= 'z' || 'A' <= c <= 'Z'
  }

  /** The characters a scheme may hold. */
  predicate IsSchemeChar(c: char) {
    IsAsciiAlpha(c) || IsDigit(c) || c == '+' || c == '-' || c == '.'
  }

  /** The scheme, lower-cased, and the rest, when the text before the first
      ':' is a non-empty run of scheme characters starting with a letter. */
  function SplitScheme(url: string): (r: (string, string))
    ensures r.0 == [] ==> r.1 == url
  {
    var i := FirstIn(url, {':'}, 0);
    if 0 < i < |url| && IsAsciiAlpha(url[0]) && forall j :: 0 <= j < i ==> IsSchemeChar(url[j])
    then (Lower(url[..i]), url[i + 1..])
    else ("", url)
  }

  /** After "//", the network location runs up to the first '/', '?' or '#'. */
  function SplitNetloc(url: string): (r: (string, string))
    ensures StartsWith(url, "//") ==> url == "//" + r.0 + r.1
    ensures StartsWith(url, "//") ==> NoneIn(r.0, {'/', '?', '#'}) && (r.1 == [] || r.1[0] in {'/', '?', '#'})
    ensures !StartsWith(url, "//") ==> r == ("", url)
  {
    if StartsWith(url, "//") then
      var delim := FirstIn(url, {'/', '?', '#'}, 2);
      assert url == url[..2] + url[2..delim] + url[delim..];
      (url[2..delim], url[delim..])
    else ("", url)
  }

  /** The schemes whose paths may carry `;parameters`. */
  const UsesParams: set<string> := {"", "ftp", "hdl", "prospero", "http", "imap", "https", "shttp", "rtsp",
                                    "rtsps", "rtspu", "sip", "sips", "mms", "sftp", "tel"}

  /** `_splitparams`: the parameters start at the first ';' after the last
      '/' (or at the first ';' when there is no '/'). */
  function SplitParams(path: string): (string, string) {
    var from := match LastIndex(path, '/') case Some(k) => k case None => 0;
    var i := FirstIn(path, {';'}, from);
    if i == |path| then (path, "") else (path[..i], path[i + 1..])
  }

  /** Brackets in the network location that do not pair up raise "Invalid
      IPv6 URL". The further checks `urlsplit` makes on bracketed and
      non-ASCII host names raise only for host names other than the three
      that the id extraction accepts, so that either way it returns `None`. */
  const InvalidIpv6 := "Invalid IPv6 URL"

  /** `urlparse(url)`: the URL is cleaned, then its scheme, network
      location, fragment, query and parameters are split off in turn. */
  function UrlParse(raw: string): Outcome<Url> {
    ParseClean(RemoveUnsafe(TrimC0(raw)))
  }

  function ParseClean(url: string): Outcome<Url> {
    var split := SplitScheme(url);
    ParseAfterScheme(split.0, split.1)
  }

  function ParseAfterScheme(scheme: string, rest: string): Outcome<Url> {
    var split := SplitNetloc(rest);
    if ('[' in split.0) != (']' in split.0) then Raised(InvalidIpv6)
    else Ok(ParseTail(scheme, split.0, split.1))
  }

  function ParseTail(scheme: string, netloc: string, tail: string): Url {
    var atFragment := SplitOnce(tail, '#');
    var beforeFragment := if atFragment.Some? then atFragment.value.0 else tail;
    var fragment := if atFragment.Some? then atFragment.value.1 else "";
    var atQuery := SplitOnce(beforeFragment, '?');
    var path := if atQuery.Some? then atQuery.value.0 else beforeFragment;
    var query := if atQuery.Some? then atQuery.value.1 else "";
    if ';' in path && scheme in UsesParams then
      Url(scheme, netloc, SplitParams(path).0, SplitParams(path).1, query, fragment)
    else Url(scheme, netloc, path, "", query, fragment)
  }

  /** `s.replace('+', ' ')`. */
  function PlusToSpace(s: string): (r: string)
    ensures |r| == |s|
    ensures forall i :: 0 <= i < |s| ==> r[i] == if s[i] == '+' then ' ' else s[i]
  {
    seq(|s|, i requires 0 <= i < |s| => if s[i] == '+' then ' ' else s[i])
  }

  /** One `name=value` field of a query, when `parse_qs` keeps it: it has an
      '=' and a non-empty value. */
  function QueryField(field: string): Option<(string, string)> {
    match SplitOnce(field, '=')
    case None => None
    case Some((name, value)) => if value == "" then None else Some((PlusToSpace(name), PlusToSpace(value)))
  }

  /** The fields `parse_qsl` returns, in order. */
  function QueryFields(query: string): seq<(string, string)> {
    FilterMap(QueryField, Split(query, {'&'}))
  }

  /** The value of the first field called `name`. */
  function FirstValue(fields: seq<(string, string)>, name: string): (r: Option<string>)
    ensures r.None? <==> forall k :: 0 <= k < |fields| ==> fields[k].0 != name
  {
    if fields == [] then None
    else if fields[0].0 == name then Some(fields[0].1)
    else FirstValue(fields[1..], name)
  }

  /** The value found is that of a field called `name` with no field of that
      name before it. */
  lemma {:induction false} FirstValueFirst(fields: seq<(string, string)>, name: string)
    requires FirstValue(fields, name).Some?
    ensures exists k :: 0 <= k < |fields| && fields[k] == (name, FirstValue(fields, name).value)
                        && forall j :: 0 <= j < k ==> fields[j].0 != name
    decreases |fields|
  {
    if fields[0].0 != name {
      var v := FirstValue(fields, name).value;
      FirstValueFirst(fields[1..], name);
      var k :| 0 <= k < |fields[1..]| && fields[1..][k] == (name, v) && forall j :: 0 <= j < k ==> fields[1..][j].0 != name;
      assert fields[k + 1] == (name, v);
      forall j | 0 <= j < k + 1 ensures fields[j].0 != name {
        if j > 0 {
          assert fields[j] == fields[1..][j - 1];
        }
      }
    }
  }

  /** `parse_qs(query)[name][0]`, where a missing name raises a `KeyError`
      that the extraction turns into `None`. */
  function QueryValue(query: string, name: string): Option<string> {
    FirstValue(QueryFields(query), name)
  }

  /** The path segment that starts at `k` and runs up to the next '/'. */
  function SegmentFrom(path: string, k: nat): string
    requires k <= |path|
  {
    path[k..FirstIn(path, {'/'}, k)]
  }

  /** `get_video_id_from_url`. */
  function VideoIdFromUrl(url: string): Option<string> {
    match UrlParse(url)
    case Raised(_) => None
    case Ok(u) => IdOfParts(u)
  }

  /** The id read from the parts of a URL: the path of a short URL, the
      query's `v` on a watch page, or the segment after "/embed/" or "/v/". */
  function IdOfParts(u: Url): Option<string> {
      if u.netloc == "youtu.be" then Some(if u.path == [] then [] else u.path[1..])
      else if u.netloc == "www.youtube.com" || u.netloc == "youtube.com" then
        if u.path == "/watch" then QueryValue(u.query, "v")
        else if StartsWith(u.path, "/embed/") then Some(SegmentFrom(u.path, 7))
        else if StartsWith(u.path, "/v/") then Some(SegmentFrom(u.path, 3))
        else None
      else None
  }

  /** One split step: the first part ends at the first delimiter. */
  lemma SplitStep(s: string, d: set<char>, p: nat)
    requires p < |s| && FirstIn(s, d, 0) == p
    ensures Split(s, d) == [s[..p]] + Split(s[p + 1..], d)
  {
  }

  /** The first part of a split runs up to the first delimiter. */
  lemma SplitFirst(s: string, d: set<char>)
    ensures Split(s, d)[0] == s[..FirstIn(s, d, 0)]
  {
  }

  /** `path.split('/')[2]` on a path that starts with "/<word>/" is the
      segment after that prefix. */
  lemma SegmentIsThirdPart(path: string, k: nat)
    requires 2 <= k <= |path| && path[0] == '/' && path[k - 1] == '/'
    requires forall j :: 1 <= j < k - 1 ==> path[j] != '/'
    ensures |Split(path, {'/'})| >= 3 && Split(path, {'/'})[2] == SegmentFrom(path, k)
  {
    var d: set<char> := {'/'};
    FirstInAt(path, d, 0);
    SplitStep(path, d, 0);
    WordThenRest(path, k);
    TailSegment(path, k);
    ThirdOf(Split(path, d), path[..0], path[1..k - 1], Split(path[k..], d));
  }

  /** After the leading '/', the word up to the next '/' splits off first. */
  lemma WordThenRest(path: string, k: nat)
    requires 2 <= k <= |path| && path[k - 1] == '/'
    requires forall j :: 1 <= j < k - 1 ==> path[j] != '/'
    ensures Split(path[1..], {'/'}) == [path[1..k - 1]] + Split(path[k..], {'/'})
  {
    var rest := path[1..];
    forall j | 0 <= j < k - 2 ensures rest[j] !in {'/'} {
      assert rest[j] == path[j + 1];
    }
    FirstInAt(rest, {'/'}, k - 2);
    SplitStep(rest, {'/'}, k - 2);
    assert rest[..k - 2] == path[1..k - 1];
    assert rest[k - 1..] == path[k..];
  }

  lemma ThirdOf(a: seq<string>, x: string, y: string, parts: seq<string>)
    requires a == [x] + ([y] + parts) && |parts| >= 1
    ensures |a| >= 3 && a[2] == parts[0]
  {
  }

  /** The first part of the text from `k` on is the segment at `k`. */
  lemma TailSegment(path: string, k: nat)
    requires k <= |path|
    ensures Split(path[k..], {'/'})[0] == SegmentFrom(path, k)
  {
    var tail := path[k..];
    var e := FirstIn(tail, {'/'}, 0);
    FirstInShift(path, k, e);
    SplitFirst(tail, {'/'});
    assert tail[..e] == path[k..k + e];
  }

  /** Searching a suffix is searching the text from where the suffix starts. */
  lemma FirstInShift(path: string, k: nat, e: nat)
    requires k <= |path| && e == FirstIn(path[k..], {'/'}, 0)
    ensures FirstIn(path, {'/'}, k) == k + e
  {
    var t := path[k..];
    forall j | k <= j < k + e ensures path[j] !in {'/'} {
      assert path[j] == t[j - k];
    }
    if k + e < |path| {
      assert path[k + e] == t[e];
    }
    FirstInFrom(path, {'/'}, k, k + e);
  }

  /** The URL of a video's watch page. */
  function WatchUrl(id: string): string {
    "https://www.youtube.com/watch?v=" + id
  }

  /** A video id that reads back unchanged from a URL: it is non-empty and
      holds none of the characters that end a query field, start a
      fragment, stand for a space or are removed or escaped on the way. */
  predicate PlainId(id: string) {
    id != [] && NoneIn(id, {'&', '#', '+', '%', '\t', '\r', '\n'})
  }

  lemma NoBrackets(host: string)
    requires NoneIn(host, {'[', ']'})
    ensures '[' !in host && ']' !in host
  {
  }

  /** The id of a watch-page URL is the id it was built from. */
  lemma WatchUrlRoundTrip(id: string)
    requires PlainId(id)
    ensures VideoIdFromUrl(WatchUrl(id)) == Some(id)
  {
    WatchUrlParts(id);
    WatchUrlTail(id);
    QueryOfId(id);
  }

  lemma WatchUrlParts(id: string)
    requires PlainId(id)
    ensures UrlParse(WatchUrl(id)) == Ok(Url("https", "www.youtube.com", "/watch", "", "v=" + id, ""))
  {
    WatchUrlCleanStep(id);
    WatchUrlSchemeStep(id);
    WatchUrlNetlocStep(id);
    WatchUrlTail(id);
  }

  lemma WatchUrlCleanStep(id: string)
    requires PlainId(id)
    ensures UrlParse(WatchUrl(id)) == ParseClean(WatchUrl(id))
  {
    WatchUrlClean(id);
  }

  lemma WatchUrlSchemeStep(id: string)
    ensures ParseClean(WatchUrl(id)) == ParseAfterScheme("https", "//www.youtube.com/watch?v=" + id)
  {
    WatchUrlScheme(id);
  }

  lemma WatchUrlNetlocStep(id: string)
    ensures ParseAfterScheme("https", "//www.youtube.com/watch?v=" + id)
         == Ok(ParseTail("https", "www.youtube.com", "/watch?v=" + id))
  {
    WatchUrlNetloc(id);
    NoBrackets("www.youtube.com");
  }

  lemma WatchUrlTail(id: string)
    requires PlainId(id)
    ensures ParseTail("https", "www.youtube.com", "/watch?v=" + id) == Url("https", "www.youtube.com", "/watch", "", "v=" + id, "")
  {
    WatchUrlQuery(id);
    assert ';' !in "/watch";
  }

  lemma WatchUrlClean(id: string)
    requires PlainId(id)
    ensures RemoveUnsafe(TrimC0(WatchUrl(id))) == WatchUrl(id)
  {
    var s := WatchUrl(id);
    assert s[0] == 'h';
    forall j | 0 <= j < |s| ensures s[j] !in Unsafe {
      if j >= 32 {
        assert s[j] == id[j - 32];
      }
    }
  }

  lemma WatchUrlScheme(id: string)
    ensures SplitScheme(WatchUrl(id)) == ("https", "//www.youtube.com/watch?v=" + id)
  {
    Glue("https", ":", "//www.youtube.com/watch?v=", "https://www.youtube.com/watch?v=", id);
    HttpsScheme("//www.youtube.com/watch?v=" + id);
  }

  /** A URL that starts with "https:". */
  lemma HttpsScheme(rest: string)
    ensures SplitScheme("https" + ":" + rest) == ("https", rest)
  {
    var scheme := "https";
    assert forall j :: 0 <= j < |scheme| ==> IsSchemeChar(scheme[j]) && scheme[j] != ':';
    assert Lower(scheme) == scheme;
    SchemeOf(scheme, rest);
  }

  /** The scheme of a URL that starts with a valid scheme and ':'. */
  lemma SchemeOf(scheme: string, rest: string)
    requires scheme != [] && IsAsciiAlpha(scheme[0])
    requires forall j :: 0 <= j < |scheme| ==> IsSchemeChar(scheme[j]) && scheme[j] != ':'
    ensures SplitScheme(scheme + ":" + rest) == (Lower(scheme), rest)
  {
    var s := scheme + ":" + rest;
    Middle(scheme, ":", rest);
    FirstInAt(s, {':'}, |scheme|);
  }

  lemma WatchUrlNetloc(id: string)
    ensures SplitNetloc("//www.youtube.com/watch?v=" + id) == ("www.youtube.com", "/watch?v=" + id)
  {
    Glue("//", "www.youtube.com", "/watch?v=", "//www.youtube.com/watch?v=", id);
    NetlocOf("www.youtube.com", "/watch?v=" + id);
  }

  /** The network location after "//" is the host up to the '/' that starts
      the rest. */
  lemma NetlocOf(host: string, rest: string)
    requires NoneIn(host, {'/', '?', '#'}) && rest != [] && rest[0] == '/'
    ensures SplitNetloc("//" + host + rest) == (host, rest)
  {
    var s := "//" + host + rest;
    Middle("//", host, rest);
    assert StartsWith(s, "//");
    forall j | 2 <= j < 2 + |host| ensures s[j] !in {'/', '?', '#'} {
      assert s[j] == host[j - 2];
    }
    FirstInFrom(s, {'/', '?', '#'}, 2, 2 + |host|);
  }

  lemma WatchUrlQuery(id: string)
    requires PlainId(id)
    ensures SplitOnce("/watch?v=" + id, '#').None?
    ensures SplitOnce("/watch?v=" + id, '?') == Some(("/watch", "v=" + id))
  {
    var pre := "/watch?v=";
    var s := pre + id;
    forall j | 0 <= j < |s| ensures s[j] != '#' {
      if j >= 9 {
        assert s[j] == id[j - 9];
      } else {
        assert s[j] == pre[j];
      }
    }
    assert forall j :: 0 <= j < |pre| ==> s[j] == pre[j];
    FirstInAt(s, {'?'}, 6);
    assert s[..6] == pre[..6] == "/watch";
    assert s[7..] == pre[7..] + id;
  }

  lemma QueryOfId(id: string)
    requires PlainId(id)
    ensures QueryValue("v=" + id, "v") == Some(id)
  {
    var q := "v=" + id;
    forall j | 0 <= j < |q| ensures q[j] !in {'&'} {
      if j >= 2 {
        assert q[j] == id[j - 2];
      }
    }
    SplitNoDelimiter(q, {'&'});
    FirstInAt(q, {'='}, 1);
    assert q[..1] == "v" && q[2..] == id;
    assert PlusToSpace("v") == "v";
    assert PlusToSpace(id) == id;
    assert QueryField(q) == Some(("v", id));
    assert FilterMap(QueryField, [q]) == [("v", id)];
  }

  /** The id of a short URL is its path without the leading '/'. */
  lemma ShortUrlRoundTrip(id: string)
    requires NoneIn(id, {'?', '#', ';', '\t', '\r', '\n'})
    ensures VideoIdFromUrl("https://youtu.be/" + id) == Some(id)
  {
    ShortUrlCleanStep(id);
    ShortUrlSchemeStep(id);
    ShortUrlNetlocStep(id);
    ShortUrlTail(id);
    assert ("/" + id)[1..] == id;
  }

  lemma ShortUrlCleanStep(id: string)
    requires NoneIn(id, {'?', '#', ';', '\t', '\r', '\n'})
    ensures UrlParse("https://youtu.be/" + id) == ParseClean("https://youtu.be/" + id)
  {
    ShortUrlClean(id);
  }

  lemma ShortUrlSchemeStep(id: string)
    ensures ParseClean("https://youtu.be/" + id) == ParseAfterScheme("https", "//youtu.be/" + id)
  {
    ShortUrlScheme(id);
  }

  lemma ShortUrlScheme(id: string)
    ensures SplitScheme("https://youtu.be/" + id) == ("https", "//youtu.be/" + id)
  {
    Glue("https", ":", "//youtu.be/", "https://youtu.be/", id);
    HttpsScheme("//youtu.be/" + id);
  }

  lemma ShortUrlNetlocStep(id: string)
    ensures ParseAfterScheme("https", "//youtu.be/" + id) == Ok(ParseTail("https", "youtu.be", "/" + id))
  {
    Glue("//", "youtu.be", "/", "//youtu.be/", id);
    NetlocOf("youtu.be", "/" + id);
    NoBrackets("youtu.be");
  }

  lemma ShortUrlTail(id: string)
    requires NoneIn(id, {'?', '#', ';', '\t', '\r', '\n'})
    ensures ParseTail("https", "youtu.be", "/" + id) == Url("https", "youtu.be", "/" + id, "", "", "")
  {
    var path := "/" + id;
    forall j | 0 <= j < |path| ensures path[j] !in {'?', '#'} {
      if j >= 1 {
        assert path[j] == id[j - 1];
      }
    }
    assert SplitOnce(path, '#').None? && SplitOnce(path, '?').None?;
  }

  lemma ShortUrlClean(id: string)
    requires NoneIn(id, {'?', '#', ';', '\t', '\r', '\n'})
    ensures RemoveUnsafe(TrimC0("https://youtu.be/" + id)) == "https://youtu.be/" + id
  {
    var s := "https://youtu.be/" + id;
    assert s[0] == 'h';
    forall j | 0 <= j < |s| ensures s[j] !in Unsafe {
      if j >= 17 {
        assert s[j] == id[j - 17];
      }
    }
  }

  /** A host other than the three YouTube names, a port after the name, or
      a mobile host gives no id. */
  lemma OtherHostNoId(url: string)
    requires UrlParse(url).Ok?
    requires var n := UrlParse(url).value.netloc; n != "youtu.be" && n != "www.youtube.com" && n != "youtube.com"
    ensures VideoIdFromUrl(url).None?
  {
  }

  /** `get_video_transcript_data`: no id (or an empty one) skips the fetch;
      otherwise the fetched transcript, or `None` when the fetch raised. */
  datatype TranscriptData = TranscriptData(videoId: string, transcript: Json)

  function TranscriptDataFor(url: string, fetch: string -> Outcome<Json>): (r: Option<TranscriptData>)
    ensures (VideoIdFromUrl(url).None? || VideoIdFromUrl(url) == Some("")) ==> r.None?
    ensures r.Some? ==> Some(r.value.videoId) == VideoIdFromUrl(url) && fetch(r.value.videoId) == Ok(r.value.transcript)
  {
    match VideoIdFromUrl(url)
    case None => None
    case Some(id) =>
      if id == "" then None
      else match fetch(id)
        case Raised(_) => None
        case Ok(t) => Some(TranscriptData(id, t))
  }

  /** The transcript of a watch-page URL is fetched for the very id it was built from. */
  lemma WatchUrlFetchesId(id: string, fetch: string -> Outcome<Json>)
    requires PlainId(id)
    ensures TranscriptDataFor(WatchUrl(id), fetch).Some? <==> fetch(id).Ok?
    ensures TranscriptDataFor(WatchUrl(id), fetch).Some? ==> TranscriptDataFor(WatchUrl(id), fetch).value == TranscriptData(id, fetch(id).value)
  {
    WatchUrlRoundTrip(id);
  }
}
