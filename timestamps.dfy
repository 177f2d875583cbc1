/** The timestamp normaliser of the video-enhancement agent: the `H:MM:SS`
    rendering of a second count (`_format_duration`) and the fixed ladder of
    timestamp patterns that `_extract_timestamps` tries on every
    `label: value` line of a text. */
module Timestamps {
  import opened Common
  import opened Text

  /** `int(x)` on a float: truncation toward zero. */
  function Trunc(x: real): (r: int)
    ensures x >= 0.0 ==> r as real <= x < r as real + 1.0
    ensures x < 0.0 ==> r as real - 1.0 < x <= r as real
  {
    if x >= 0.0 then x.Floor else -((-x).Floor)
  }

  /** `%02d`. */
  function Pad2(n: nat): (r: string)
    requires n < 100
    ensures |r| == 2 && AllDigits(r) && DigitsValue(r) == n
  {
    var r := if n < 10 then ['0', DigitChar(n)] else [DigitChar(n / 10), DigitChar(n % 10)];
    assert r[..1][..0] == [] && r[..|r| - 1] == r[..1];
    assert DigitsValue(r[..1]) == DigitValue(r[0]);
    assert DigitsValue(r) == DigitValue(r[0]) * 10 + DigitValue(r[1]);
    r
  }

  /** `H:MM:SS` for a second count within one day. */
  function Clock(r: nat): string
    requires r < 86400
  {
    NatToString(r / 3600) + ":" + Pad2(r % 3600 / 60) + ":" + Pad2(r % 60)
  }

  /** `str(timedelta(seconds=n))`: whole days (floor division, as in Python)
      are written before the clock part of the remainder. */
  function FormatDuration(n: int): string {
    var days := n / 86400;
    var rest := n % 86400;
    if days == 0 then Clock(rest)
    else IntToString(days) + (if days == 1 || days == -1 then " day, " else " days, ") + Clock(rest)
  }

  /** `_format_duration(seconds)`: `str(timedelta(seconds=int(seconds)))`. */
  function FormatSeconds(seconds: real): string {
    FormatDuration(Trunc(seconds))
  }

  // ---------------------------------------------------------------------
  // Regular-expression patterns
  // ---------------------------------------------------------------------

  /** One element of a timestamp pattern: a capturing `(\d+)` or a literal. */
  datatype Tok = Digits | Lit(c: char)

  const HourMinSec: seq<Tok> := [Digits, Lit(':'), Digits, Lit(':'), Digits]
  const MinSec: seq<Tok> := [Digits, Lit(':'), Digits]
  const MinSecLetters: seq<Tok> := [Digits, Lit('m'), Digits, Lit('s')]
  const MinutesOnly: seq<Tok> := [Digits, Lit('m')]
  const SecondsOnly: seq<Tok> := [Digits, Lit('s')]
  const Decimal: seq<Tok> := [Digits, Lit('.'), Digits]

  /** The patterns in the order `_extract_timestamps` tries them. */
  const Ladder: seq<seq<Tok>> := [HourMinSec, MinSec, MinSecLetters, MinutesOnly, SecondsOnly, Decimal]

  function DigitGroups(pat: seq<Tok>): nat {
    if pat == [] then 0 else (if pat[0].Digits? then 1 else 0) + DigitGroups(pat[1..])
  }

  predicate GroupsOk(gs: seq<string>) {
    forall k :: 0 <= k < |gs| ==> gs[k] != [] && AllDigits(gs[k])
  }

  /** Every `(\d+)` is last or followed by a literal that is not a digit, so a
      shorter digit run can never let the rest of the pattern match. */
  predicate WellFormed(pat: seq<Tok>) {
    forall k :: 0 <= k < |pat| - 1 && pat[k].Digits? ==> pat[k + 1].Lit? && !IsDigit(pat[k + 1].c)
  }

  /** The match Python's backtracking engine finds at `i`: every `\d+` takes
      the whole run of digits. Gives the end of the match and the groups. */
  function MatchAt(pat: seq<Tok>, s: string, i: nat): (r: Option<(nat, seq<string>)>)
    requires i <= |s|
    ensures r.Some? ==> i <= r.value.0 <= |s| && |r.value.1| == DigitGroups(pat) && GroupsOk(r.value.1)
    decreases |pat|
  {
    if pat == [] then Some((i, []))
    else match pat[0]
      case Lit(c) =>
        if i < |s| && s[i] == c then MatchAt(pat[1..], s, i + 1) else None
      case Digits =>
        var e := DigitRunEnd(s, i);
        if e == i then None
        else match MatchAt(pat[1..], s, e)
          case None => None
          case Some(m) => Some((m.0, [s[i..e]] + m.1))
  }

  /** Reference semantics of a pattern: SOME choice of digit-run lengths
      makes the whole pattern match at `i`. */
  ghost predicate RegexMatches(pat: seq<Tok>, s: string, i: nat)
    requires i <= |s|
    decreases |pat|
  {
    if pat == [] then true
    else match pat[0]
      case Lit(c) => i < |s| && s[i] == c && RegexMatches(pat[1..], s, i + 1)
      case Digits => exists e :: i < e <= |s| && AllDigits(s[i..e]) && RegexMatches(pat[1..], s, e)
  }

  /** For the well-formed patterns of the ladder, the greedy match exists
      exactly when the pattern matches at all. */
  lemma {:induction false} GreedyAgrees(pat: seq<Tok>, s: string, i: nat)
    requires i <= |s| && WellFormed(pat)
    ensures RegexMatches(pat, s, i) <==> MatchAt(pat, s, i).Some?
    decreases |pat|
  {
    if pat != [] {
      assert WellFormed(pat[1..]) by {
        forall k | 0 <= k < |pat[1..]| - 1 && pat[1..][k].Digits?
          ensures pat[1..][k + 1].Lit? && !IsDigit(pat[1..][k + 1].c)
        {
          assert pat[k + 1] == pat[1..][k];
        }
      }
      match pat[0]
      case Lit(c) =>
        if i < |s| && s[i] == c {
          GreedyAgrees(pat[1..], s, i + 1);
        }
      case Digits =>
        var e := DigitRunEnd(s, i);
        if e > i {
          GreedyAgrees(pat[1..], s, e);
          assert AllDigits(s[i..e]);
        }
        if RegexMatches(pat, s, i) {
          var e' :| i < e' <= |s| && AllDigits(s[i..e']) && RegexMatches(pat[1..], s, e');
          assert s[i] == s[i..e'][0];
          if |pat| > 1 {
            assert pat[1].Lit? && !IsDigit(pat[1].c);
            assert pat[1..][0] == pat[1];
            assert e' < |s| && !IsDigit(s[e']);
            assert forall j :: i <= j < e' ==> IsDigit(s[j]) by {
              forall j | i <= j < e' ensures IsDigit(s[j]) {
                assert s[j] == s[i..e'][j - i];
              }
            }
          } else {
            assert e > i;
          }
          GreedyAgrees(pat[1..], s, e');
        }
    }
  }

  /** The leftmost greedy match at or after `i` (the first element of
      `re.findall`): its start and its groups. */
  function Search(pat: seq<Tok>, s: string, i: nat): (r: Option<(nat, seq<string>)>)
    requires i <= |s|
    ensures r.None? ==> forall j :: i <= j <= |s| ==> MatchAt(pat, s, j).None?
    ensures r.Some? ==> i <= r.value.0 <= |s| && MatchAt(pat, s, r.value.0).Some?
                        && MatchAt(pat, s, r.value.0).value.1 == r.value.1
    ensures r.Some? ==> forall j :: i <= j < r.value.0 ==> MatchAt(pat, s, j).None?
    decreases |s| - i
  {
    match MatchAt(pat, s, i)
    case Some(m) => Some((i, m.1))
    case None => if i == |s| then None else Search(pat, s, i + 1)
  }

  /** Seconds for a match of ladder pattern `k`: `h*3600+m*60+s`, `m*60+s`,
      `m*60+s`, `x*60`, `x`, and the decimal number itself. */
  function Convert(k: nat, gs: seq<string>): real
    requires k < 6 && |gs| == DigitGroups(Ladder[k]) && GroupsOk(gs)
  {
    if k == 0 then (DigitsValue(gs[0]) * 3600 + DigitsValue(gs[1]) * 60 + DigitsValue(gs[2])) as real
    else if k == 1 || k == 2 then (DigitsValue(gs[0]) * 60 + DigitsValue(gs[1])) as real
    else if k == 3 then (DigitsValue(gs[0]) * 60) as real
    else if k == 4 then DigitsValue(gs[0]) as real
    else DigitsValue(gs[0]) as real + DigitsValue(gs[1]) as real / Pow10(|gs[1]|) as real
  }

  function Pow10(n: nat): (r: nat)
    ensures r >= 1
  {
    if n == 0 then 1 else 10 * Pow10(n - 1)
  }

  /** Tries the ladder from pattern `k` on: the first pattern with any match
      decides, using its first match. */
  function LadderFrom(value: string, k: nat): Option<real>
    requires k <= 6
    decreases 6 - k
  {
    if k == 6 then None
    else match Search(Ladder[k], value, 0)
      case Some(m) => Some(Convert(k, m.1))
      case None => LadderFrom(value, k + 1)
  }

  /** The seconds a timestamp value denotes, or None when no pattern matches. */
  function TimestampValue(value: string): Option<real> {
    LadderFrom(value, 0)
  }

  /** Precedence of the ladder: a value is read by pattern `k` exactly when no
      earlier pattern matches it anywhere (in the sense of the reference
      semantics), and then the leftmost match of pattern `k` is converted. */
  lemma {:induction false} LadderPrecedence(value: string, k: nat)
    requires k < 6
    requires forall j :: 0 <= j < k ==> forall p :: 0 <= p <= |value| ==> !RegexMatches(Ladder[j], value, p)
    requires exists p :: 0 <= p <= |value| && RegexMatches(Ladder[k], value, p)
    ensures TimestampValue(value).Some?
    ensures Search(Ladder[k], value, 0).Some?
    ensures TimestampValue(value) == Some(Convert(k, Search(Ladder[k], value, 0).value.1))
  {
    var p :| 0 <= p <= |value| && RegexMatches(Ladder[k], value, p);
    LadderWellFormed(k);
    GreedyAgrees(Ladder[k], value, p);
    LadderSkips(value, k);
  }

  /** The patterns before `k`, matching nowhere, hand the value on to
      pattern `k`. */
  lemma {:induction false} LadderSkips(value: string, k: nat)
    requires k < 6
    requires forall j :: 0 <= j < k ==> forall p :: 0 <= p <= |value| ==> !RegexMatches(Ladder[j], value, p)
    ensures LadderFrom(value, k) == LadderFrom(value, 0)
  {
    if k > 0 {
      LadderSkips(value, k - 1);
      NoEarlierMatch(value, k - 1);
      LadderStep(value, k - 1);
    }
  }

  /** A pattern of the ladder that matches nowhere is not found by the
      search. */
  lemma NoEarlierMatch(value: string, j: nat)
    requires j < 6 && forall p :: 0 <= p <= |value| ==> !RegexMatches(Ladder[j], value, p)
    ensures Search(Ladder[j], value, 0).None?
  {
    LadderWellFormed(j);
    NotFound(Ladder[j], value);
  }

  lemma LadderWellFormed(j: nat)
    requires j < 6
    ensures WellFormed(Ladder[j])
  {
    forall k | 0 <= k < 6 ensures WellFormed(Ladder[k]) { }
  }

  lemma NotFound(pat: seq<Tok>, value: string)
    requires WellFormed(pat) && forall p :: 0 <= p <= |value| ==> !RegexMatches(pat, value, p)
    ensures Search(pat, value, 0).None?
  {
    var r := Search(pat, value, 0);
    if r.Some? {
      GreedyAgrees(pat, value, r.value.0);
    }
  }

  /** A pattern that finds nothing hands the value to the next one. */
  lemma LadderStep(value: string, j: nat)
    requires j < 6 && Search(Ladder[j], value, 0).None?
    ensures LadderFrom(value, j) == LadderFrom(value, j + 1)
  {
  }

  // ---------------------------------------------------------------------
  // `_extract_timestamps`
  // ---------------------------------------------------------------------

  /** The entry one line contributes: the stripped text before its first ':'
      and the value of the stripped text after it, when the ladder reads one. */
  function LineEntry(line: string): (r: Option<(string, real)>)
    ensures r.Some? ==> ':' in line
  {
    match SplitOnce(line, ':')
    case None => None
    case Some(parts) =>
      match TimestampValue(Strip(parts.1))
      case None => None
      case Some(x) => Some((Strip(parts.0), x))
  }

  /** Adds one line's entry to the map, overwriting an earlier value. */
  function Put(m: map<string, real>, e: Option<(string, real)>): map<string, real> {
    match e
    case None => m
    case Some(p) => m[p.0 := p.1]
  }

  /** The map a sequence of line entries builds, in order. */
  function MapOf(es: seq<Option<(string, real)>>): map<string, real>
    decreases |es|
  {
    if es == [] then map[] else Put(MapOf(es[..|es| - 1]), es[|es| - 1])
  }

  function EntriesOf(lines: seq<string>): (es: seq<Option<(string, real)>>)
    ensures |es| == |lines|
    ensures forall j :: 0 <= j < |lines| ==> es[j] == LineEntry(lines[j])
  {
    seq(|lines|, j requires 0 <= j < |lines| => LineEntry(lines[j]))
  }

  /** The map the loop over the lines of `_extract_timestamps` builds. */
  function TimesOf(lines: seq<string>): map<string, real> {
    MapOf(EntriesOf(lines))
  }

  predicate HasKey(e: Option<(string, real)>, key: string) {
    e.Some? && e.value.0 == key
  }

  lemma MapOfStep(es: seq<Option<(string, real)>>, i: nat)
    requires i < |es|
    ensures MapOf(es[..i + 1]) == Put(MapOf(es[..i]), es[i])
  {
    assert es[..i + 1][..i] == es[..i];
  }

  /** Every key of the map comes from some entry carrying it. */
  lemma {:induction false} MapOfKeys(es: seq<Option<(string, real)>>, key: string)
    requires key in MapOf(es)
    ensures exists j :: 0 <= j < |es| && HasKey(es[j], key)
    decreases |es|
  {
    var n := |es| - 1;
    if !HasKey(es[n], key) {
      MapOfKeys(es[..n], key);
      var j :| 0 <= j < n && HasKey(es[..n][j], key);
      assert es[..n][j] == es[j];
    }
  }

  /** The last entry with a given key decides its value. */
  lemma {:induction false} MapOfLastWins(es: seq<Option<(string, real)>>, j: nat)
    requires j < |es| && es[j].Some?
    requires forall j' :: j < j' < |es| ==> !HasKey(es[j'], es[j].value.0)
    ensures es[j].value.0 in MapOf(es) && MapOf(es)[es[j].value.0] == es[j].value.1
    decreases |es|
  {
    var n := |es| - 1;
    if j < n {
      var init := es[..n];
      assert init[j] == es[j];
      forall j' | j < j' < |init| ensures !HasKey(init[j'], init[j].value.0) {
        assert init[j'] == es[j'];
      }
      MapOfLastWins(init, j);
    }
  }

  /** Only lines containing ':' contribute keys, and each key is the stripped
      text before the first ':' of such a line. */
  lemma TimesOfKeys(lines: seq<string>, key: string)
    requires key in TimesOf(lines)
    ensures exists j :: 0 <= j < |lines| && ':' in lines[j] && LineEntry(lines[j]).Some?
                        && LineEntry(lines[j]).value.0 == key
  {
    MapOfKeys(EntriesOf(lines), key);
  }

  /** A later line with the same key overwrites an earlier one: the last line
      carrying a key decides its value. */
  lemma TimesOfLastWins(lines: seq<string>, j: nat)
    requires j < |lines| && LineEntry(lines[j]).Some?
    requires forall j' :: j < j' < |lines| ==> !HasKey(LineEntry(lines[j']), LineEntry(lines[j]).value.0)
    ensures LineEntry(lines[j]).value.0 in TimesOf(lines)
    ensures TimesOf(lines)[LineEntry(lines[j]).value.0] == LineEntry(lines[j]).value.1
  {
    MapOfLastWins(EntriesOf(lines), j);
  }

  /** One entry gives a map of at most one key. */
  lemma OneEntryOneKey(e: Option<(string, real)>)
    ensures |MapOf([e]).Keys| <= 1
  {
    assert [e][..0] == [];
    match e
    case None =>
    case Some(p) => assert map[][p.0 := p.1].Keys == {p.0};
  }

  /** A text without a line break is one line, and so yields at most one key. */
  lemma OneLineOneKey(text: string)
    requires '\n' !in text
    ensures Split(text, {'\n'}) == [text]
    ensures |TimesOf(Split(text, {'\n'})).Keys| <= 1
  {
    SplitNoDelimiter(text, {'\n'});
    assert EntriesOf([text]) == [LineEntry(text)];
    OneEntryOneKey(LineEntry(text));
  }

  /** The inner loop of `_extract_timestamps`: the patterns are tried in
      order and the first one with a match gives the seconds. */
  method ReadTimestamp(value: string) returns (seconds: Option<real>)
    ensures seconds == TimestampValue(value)
  {
    seconds := None;
    var k := 0;
    while k < |Ladder|
      invariant 0 <= k <= 6
      invariant LadderFrom(value, k) == TimestampValue(value)
      invariant seconds == None
    {
      var m := Search(Ladder[k], value, 0);
      if m.Some? {
        seconds := Some(Convert(k, m.value.1));
        break;
      }
      k := k + 1;
    }
  }

  /** The entry of a line with a ':', in terms of the two halves around it. */
  lemma LineEntryOfParts(line: string, parts: (string, string))
    requires SplitOnce(line, ':') == Some(parts)
    ensures LineEntry(line) == match TimestampValue(Strip(parts.1))
                               case None => None
                               case Some(x) => Some((Strip(parts.0), x))
  {
  }

  /** The body of the loop of `_extract_timestamps` for one line: the key
      and the seconds it sets, if any. */
  method ReadLine(line: string) returns (e: Option<(string, real)>)
    ensures e == LineEntry(line)
  {
    e := None;
    var parts := SplitOnce(line, ':');
    if parts.Some? {
      var key, value := Strip(parts.value.0), Strip(parts.value.1);
      var seconds := ReadTimestamp(value);
      LineEntryOfParts(line, parts.value);
      e := match seconds
        case None => None
        case Some(x) => Some((key, x));
    }
  }

  /** `_extract_timestamps(text)`: every line of the text is read in order. */
  method ExtractTimestamps(text: string) returns (times: map<string, real>)
    ensures times == TimesOf(Split(text, {'\n'}))
  {
    var lines := Split(text, {'\n'});
    ghost var es := EntriesOf(lines);
    times := map[];
    var i := 0;
    while i < |lines|
      invariant 0 <= i <= |lines|
      invariant times == MapOf(es[..i])
    {
      var e := ReadLine(lines[i]);
      MapOfStep(es, i);
      if e.Some? {
        times := times[e.value.0 := e.value.1];
      }
      i := i + 1;
    }
    assert es[..|lines|] == es;
  }

  /** A run of digits followed by a non-digit (or the end) ends there. */
  lemma RunEnds(s: string, i: nat, e: nat)
    requires i <= e <= |s|
    requires forall j :: i <= j < e ==> IsDigit(s[j])
    requires e == |s| || !IsDigit(s[e])
    ensures DigitRunEnd(s, i) == e
  {
  }

  // Helpers for MatchClock: the pattern's suffixes, one token at a time.
  lemma MatchClockSeconds(s: string, a: nat)
    requires 0 < a && |s| == a + 6
    requires IsDigit(s[a + 4]) && IsDigit(s[a + 5])
    ensures MatchAt([Digits], s, a + 4) == Some((a + 6, [s[a + 4..]]))
  {
    RunEnds(s, a + 4, a + 6);
    assert [Digits][1..] == [];
    assert s[a + 4..a + 6] == s[a + 4..];
    assert [s[a + 4..]] + [] == [s[a + 4..]];
  }

  lemma MatchClockColonSeconds(s: string, a: nat)
    requires 0 < a && |s| == a + 6
    requires s[a + 3] == ':' && IsDigit(s[a + 4]) && IsDigit(s[a + 5])
    ensures MatchAt([Lit(':'), Digits], s, a + 3) == Some((a + 6, [s[a + 4..]]))
  {
    MatchClockSeconds(s, a);
    assert [Lit(':'), Digits][1..] == [Digits];
  }

  lemma MatchClockMinutes(s: string, a: nat)
    requires 0 < a && |s| == a + 6
    requires IsDigit(s[a + 1]) && IsDigit(s[a + 2])
    requires s[a + 3] == ':' && IsDigit(s[a + 4]) && IsDigit(s[a + 5])
    ensures MatchAt([Digits, Lit(':'), Digits], s, a + 1) == Some((a + 6, [s[a + 1..a + 3], s[a + 4..]]))
  {
    MatchClockColonSeconds(s, a);
    RunEnds(s, a + 1, a + 3);
    assert [Digits, Lit(':'), Digits][1..] == [Lit(':'), Digits];
    assert [s[a + 1..a + 3]] + [s[a + 4..]] == [s[a + 1..a + 3], s[a + 4..]];
  }

  lemma MatchClockColonMinutes(s: string, a: nat)
    requires 0 < a && |s| == a + 6
    requires s[a] == ':' && IsDigit(s[a + 1]) && IsDigit(s[a + 2])
    requires s[a + 3] == ':' && IsDigit(s[a + 4]) && IsDigit(s[a + 5])
    ensures MatchAt([Lit(':'), Digits, Lit(':'), Digits], s, a) == Some((a + 6, [s[a + 1..a + 3], s[a + 4..]]))
  {
    MatchClockMinutes(s, a);
    assert [Lit(':'), Digits, Lit(':'), Digits][1..] == [Digits, Lit(':'), Digits];
  }

  /** The greedy first pattern of the ladder reads a text of the shape
      `h:mm:ss` as its three digit groups. */
  lemma MatchClock(s: string, a: nat)
    requires 0 < a && |s| == a + 6
    requires forall j :: 0 <= j < a ==> IsDigit(s[j])
    requires s[a] == ':' && IsDigit(s[a + 1]) && IsDigit(s[a + 2])
    requires s[a + 3] == ':' && IsDigit(s[a + 4]) && IsDigit(s[a + 5])
    ensures MatchAt(HourMinSec, s, 0) == Some((a + 6, [s[..a], s[a + 1..a + 3], s[a + 4..]]))
  {
    MatchClockColonMinutes(s, a);
    RunEnds(s, 0, a);
    assert HourMinSec[1..] == [Lit(':'), Digits, Lit(':'), Digits];
    assert s[0..a] == s[..a];
    assert [s[..a]] + [s[a + 1..a + 3], s[a + 4..]] == [s[..a], s[a + 1..a + 3], s[a + 4..]];
  }

  /** A match of the first pattern at the very start decides the value. */
  lemma FirstPatternAtStart(s: string, e: nat, gs: seq<string>)
    requires MatchAt(HourMinSec, s, 0) == Some((e, gs))
    ensures |gs| == 3 && GroupsOk(gs)
    ensures TimestampValue(s) == Some(Convert(0, gs))
  {
    assert Search(Ladder[0], s, 0) == Some((0, gs));
  }

  /** The text `_format_duration` renders for `n` seconds within one day has
      the shape `h:mm:ss`, with `h`, `mm` and `ss` the hours, minutes and seconds. */
  lemma ClockShape(n: nat)
    requires n < 86400
    ensures var s, a := Clock(n), |NatToString(n / 3600)|;
      && 0 < a && |s| == a + 6
      && (forall j :: 0 <= j < a ==> IsDigit(s[j]))
      && s[a] == ':' && IsDigit(s[a + 1]) && IsDigit(s[a + 2])
      && s[a + 3] == ':' && IsDigit(s[a + 4]) && IsDigit(s[a + 5])
      && s[..a] == NatToString(n / 3600) && s[a + 1..a + 3] == Pad2(n % 3600 / 60) && s[a + 4..] == Pad2(n % 60)
  {
    var h, mm, ss := NatToString(n / 3600), Pad2(n % 3600 / 60), Pad2(n % 60);
    var s := Clock(n);
    assert s == h + ":" + mm + ":" + ss;
  }

  /** A clock rendered by `_format_duration` reads back, through the first
      pattern of the ladder, as the same number of seconds. */
  lemma ClockRoundTrip(n: nat)
    requires n < 86400
    ensures FormatDuration(n) == Clock(n)
    ensures TimestampValue(Clock(n)) == Some(n as real)
  {
    var h, mm, ss := NatToString(n / 3600), Pad2(n % 3600 / 60), Pad2(n % 60);
    FormatWithinDay(n);
    ClockShape(n);
    MatchClock(Clock(n), |h|);
    FirstPatternAtStart(Clock(n), |h| + 6, [h, mm, ss]);
    ClockValue(n);
  }

  /** The three groups of a clock convert back to its second count. */
  lemma ClockValue(n: nat)
    requires n < 86400
    ensures var gs := [NatToString(n / 3600), Pad2(n % 3600 / 60), Pad2(n % 60)];
      GroupsOk(gs) && Convert(0, gs) == n as real
  {
    var h, mm, ss := NatToString(n / 3600), Pad2(n % 3600 / 60), Pad2(n % 60);
    NatToStringRoundTrip(n / 3600);
    var hv, mv, sv := DigitsValue(h), DigitsValue(mm), DigitsValue(ss);
    assert hv == n / 3600 && mv == n % 3600 / 60 && sv == n % 60;
    ClockArithmetic(n);
    assert hv * 3600 + mv * 60 + sv == n;
  }

  /** Less than a day is written as the clock alone. */
  lemma FormatWithinDay(n: nat)
    requires n < 86400
    ensures FormatDuration(n) == Clock(n)
  {
    WithinDay(n);
  }

  lemma WithinDay(n: nat)
    requires n < 86400
    ensures n / 86400 == 0 && n % 86400 == n
  {
  }

  lemma ClockArithmetic(n: nat)
    ensures n / 3600 * 3600 + n % 3600 / 60 * 60 + n % 60 == n
  {
    assert n == n / 3600 * 3600 + n % 3600;
    var r := n % 3600;
    assert r == r / 60 * 60 + r % 60;
    assert n % 60 == r % 60;
  }
}
