/** The string operations of Python's `str` that the agents use: whitespace
    stripping, ASCII lower-casing, substring search, splitting, joining and
    decimal conversion. Strings are sequences of Unicode scalar values, as
    Python's `str` is a sequence of code points. */
module Text {
  import opened Common

  /** The characters for which Python's `str.isspace()` holds; `str.strip()`
      and the regular-expression class `\s` both use this set. */
  predicate IsSpace(c: char) {
    || c == ' '
    || ('\t' <= c <= '\r')
    || ('\U{1C}' <= c <= '\U{1F}')
    || c == '\U{85}' || c == '\U{A0}' || c == '\U{1680}'
    || ('\U{2000}' <= c <= '\U{200A}')
    || c == '\U{2028}' || c == '\U{2029}' || c == '\U{202F}' || c == '\U{205F}' || c == '\U{3000}'
  }

  /** An ASCII decimal digit (the regular-expression class `\d` restricted to ASCII). */
  predicate IsDigit(c: char) {
    '0' <= c <= '9'
  }

  predicate AllDigits(s: string) {
    forall i :: 0 <= i < |s| ==> IsDigit(s[i])
  }

  function LowerChar(c: char): char {
    if 'A' <= c <= 'Z' then (c as int + 32) as char else c
  }

  /** `str.lower()` on ASCII letters. */
  function Lower(s: string): (r: string)
    ensures |r| == |s|
    ensures forall i :: 0 <= i < |s| ==> r[i] == LowerChar(s[i])
  {
    seq(|s|, i requires 0 <= i < |s| => LowerChar(s[i]))
  }

  function UpperChar(c: char): char {
    if 'a' <= c <= 'z' then (c as int - 32) as char else c
  }

  /** `str.capitalize()` on ASCII letters: the first letter upper case, the rest lower case. */
  function Capitalize(s: string): (r: string)
    ensures |r| == |s|
    ensures s != [] ==> r[0] == UpperChar(s[0]) && r[1..] == Lower(s[1..])
  {
    if s == [] then [] else [UpperChar(s[0])] + Lower(s[1..])
  }

  /** `str.lstrip()`: drops the leading whitespace. */
  function TrimStart(s: string): (r: string)
    ensures |r| <= |s| && r == s[|s| - |r|..]
    ensures r == [] || !IsSpace(r[0])
    ensures forall i :: 0 <= i < |s| - |r| ==> IsSpace(s[i])
  {
    if s != [] && IsSpace(s[0]) then TrimStart(s[1..]) else s
  }

  /** `str.rstrip()`: drops the trailing whitespace. */
  function TrimEnd(s: string): (r: string)
    ensures |r| <= |s| && r == s[..|r|]
    ensures r == [] || !IsSpace(r[|r| - 1])
    ensures forall i :: |r| <= i < |s| ==> IsSpace(s[i])
  {
    if s != [] && IsSpace(s[|s| - 1]) then TrimEnd(s[..|s| - 1]) else s
  }

  /** `str.strip()`. */
  function Strip(s: string): string {
    TrimEnd(TrimStart(s))
  }

  /** The stripped text is a piece of the text. */
  lemma StripSlice(s: string) returns (a: nat, b: nat)
    ensures a <= b <= |s| && Strip(s) == s[a..b]
  {
    var t := TrimStart(s);
    var u := TrimEnd(t);
    a, b := |s| - |t|, |s| - |t| + |u|;
  }

  /** A string that neither starts nor ends with whitespace is its own
      stripped form, and stripping twice is stripping once. */
  lemma StripFixedPoint(s: string)
    ensures (s == [] || (!IsSpace(s[0]) && !IsSpace(s[|s| - 1]))) ==> Strip(s) == s
    ensures Strip(Strip(s)) == Strip(s)
  {
    var t := TrimStart(s);
    var u := TrimEnd(t);
    if u != [] {
      assert u[0] == t[0];
      assert TrimStart(u) == u;
    }
  }

  predicate StartsWith(s: string, prefix: string) {
    |prefix| <= |s| && s[..|prefix|] == prefix
  }

  predicate OccursAt(s: string, pat: string, j: int) {
    0 <= j && j + |pat| <= |s| && s[j..j + |pat|] == pat
  }

  /** `s.find(pat, i)`: the leftmost occurrence of `pat` at or after `i`. */
  function FindFrom(s: string, pat: string, i: nat): (r: Option<nat>)
    requires i <= |s|
    ensures r.Some? ==> i <= r.value && OccursAt(s, pat, r.value)
    ensures r.Some? ==> forall j :: i <= j < r.value ==> !OccursAt(s, pat, j)
    ensures r.None? ==> forall j :: i <= j ==> !OccursAt(s, pat, j)
    decreases |s| - i
  {
    if i + |pat| > |s| then None
    else if s[i..i + |pat|] == pat then Some(i)
    else FindFrom(s, pat, i + 1)
  }

  /** The leftmost occurrence at or after `i` is at `p` when `p` holds one
      and nothing between `i` and `p` does. */
  lemma {:induction false} FindFromAt(s: string, pat: string, i: nat, p: nat)
    requires i <= p && OccursAt(s, pat, p)
    requires forall j :: i <= j < p ==> !OccursAt(s, pat, j)
    ensures FindFrom(s, pat, i) == Some(p)
    decreases p - i
  {
    if i < p {
      FindFromAt(s, pat, i + 1, p);
    }
  }

  /** Python's `sub in s`. */
  predicate Contains(s: string, sub: string) {
    FindFrom(s, sub, 0).Some?
  }

  lemma ContainsIff(s: string, sub: string)
    ensures Contains(s, sub) <==> exists j :: OccursAt(s, sub, j)
  {
    var r := FindFrom(s, sub, 0);
    if r.Some? {
      assert OccursAt(s, sub, r.value);
    }
  }

  predicate NoneIn(s: string, d: set<char>) {
    forall j :: 0 <= j < |s| ==> s[j] !in d
  }

  /** The first index at or after `i` holding a character of `d`, or `|s|`. */
  function FirstIn(s: string, d: set<char>, i: nat): (r: nat)
    requires i <= |s|
    ensures i <= r <= |s|
    ensures r < |s| ==> s[r] in d
    ensures forall j :: i <= j < r ==> s[j] !in d
    decreases |s| - i
  {
    if i == |s| || s[i] in d then i else FirstIn(s, d, i + 1)
  }

  /** `re.split("[d]", s)`; with a single delimiter this is `s.split(c)`. */
  function Split(s: string, d: set<char>): (r: seq<string>)
    ensures |r| >= 1
    ensures forall k :: 0 <= k < |r| ==> NoneIn(r[k], d)
    decreases |s|
  {
    var i := FirstIn(s, d, 0);
    if i == |s| then [s] else [s[..i]] + Split(s[i + 1..], d)
  }

  /** `sep.join(parts)`. */
  function Join(sep: string, parts: seq<string>): string
    decreases |parts|
  {
    if |parts| == 0 then ""
    else if |parts| == 1 then parts[0]
    else parts[0] + sep + Join(sep, parts[1..])
  }

  /** Splitting on a character and joining on it again gives back the text. */
  lemma {:induction false} SplitJoin(s: string, c: char)
    ensures Join([c], Split(s, {c})) == s
    decreases |s|
  {
    var i := FirstIn(s, {c}, 0);
    if i < |s| {
      var rest := Split(s[i + 1..], {c});
      SplitJoin(s[i + 1..], c);
      assert Split(s, {c}) == [s[..i]] + rest;
      assert s == s[..i] + [c] + s[i + 1..];
    }
  }

  /** A text without the delimiter splits into itself alone. */
  lemma SplitNoDelimiter(s: string, d: set<char>)
    requires NoneIn(s, d)
    ensures Split(s, d) == [s]
  {
    assert FirstIn(s, d, 0) == |s|;
  }

  lemma FirstInAt(s: string, d: set<char>, p: nat)
    requires p < |s| && s[p] in d
    requires forall j :: 0 <= j < p ==> s[j] !in d
    ensures FirstIn(s, d, 0) == p
  {
  }

  /** Joining parts that hold no delimiter with one of the delimiters and
      splitting the result again gives back the parts. */
  lemma {:induction false} JoinSplit(parts: seq<string>, c: char, d: set<char>)
    requires |parts| >= 1 && c in d
    requires forall k :: 0 <= k < |parts| ==> NoneIn(parts[k], d)
    ensures Split(Join([c], parts), d) == parts
    decreases |parts|
  {
    if |parts| == 1 {
      SplitNoDelimiter(parts[0], d);
    } else {
      var rest := Join([c], parts[1..]);
      assert Join([c], parts) == parts[0] + [c] + rest;
      SplitAtFirst(parts[0], c, rest, d);
      JoinSplit(parts[1..], c, d);
      assert parts == [parts[0]] + parts[1..];
    }
  }

  /** A delimiter after a delimiter-free text ends the first part. */
  lemma SplitAtFirst(first: string, c: char, rest: string, d: set<char>)
    requires c in d && NoneIn(first, d)
    ensures Split(first + [c] + rest, d) == [first] + Split(rest, d)
  {
    var s := first + [c] + rest;
    forall j | 0 <= j < |first| ensures s[j] !in d {
      assert s[j] == first[j];
    }
    FirstInAt(s, d, |first|);
    assert s[..|first|] == first && s[|first| + 1..] == rest;
  }

  /** `s.split(c, 1)`: the text before and after the first `c`, when there is one. */
  function SplitOnce(s: string, c: char): (r: Option<(string, string)>)
    ensures r.None? <==> c !in s
    ensures r.Some? ==> s == r.value.0 + [c] + r.value.1 && c !in r.value.0
  {
    var i := FirstIn(s, {c}, 0);
    if i == |s| then None else Some((s[..i], s[i + 1..]))
  }

  /** The index of the last `c` in `s`, when there is one. */
  function LastIndex(s: string, c: char): (r: Option<nat>)
    ensures r.None? <==> c !in s
    ensures r.Some? ==> r.value < |s| && s[r.value] == c && forall j :: r.value < j < |s| ==> s[j] != c
  {
    if s == [] then None
    else if s[|s| - 1] == c then Some(|s| - 1)
    else LastIndex(s[..|s| - 1], c)
  }

  /** The first delimiter at or after `i` is at `p` when `p` holds one (or
      is the end) and nothing between `i` and `p` does. */
  lemma {:induction false} FirstInFrom(s: string, d: set<char>, i: nat, p: nat)
    requires i <= p <= |s|
    requires p < |s| ==> s[p] in d
    requires forall j :: i <= j < p ==> s[j] !in d
    ensures FirstIn(s, d, i) == p
    decreases p - i
  {
    if i < p {
      FirstInFrom(s, d, i + 1, p);
    }
  }

  /** The middle of three pieces. */
  lemma Middle(a: string, b: string, c: string)
    ensures (a + b + c)[|a|..|a| + |b|] == b
    ensures (a + b + c)[|a| + |b|..] == c
    ensures (a + b + c)[..|a|] == a
  {
    var s := a + b + c;
    assert forall j :: 0 <= j < |b| ==> s[|a|..|a| + |b|][j] == b[j];
    assert forall j :: 0 <= j < |c| ==> s[|a| + |b|..][j] == c[j];
    assert forall j :: 0 <= j < |a| ==> s[..|a|][j] == a[j];
  }

  /** A literal split in three pieces, followed by the rest of a text. */
  lemma Glue(a: string, b: string, x: string, whole: string, rest: string)
    requires a + b + x == whole
    ensures a + b + (x + rest) == whole + rest
  {
    var l := a + b + (x + rest);
    forall j | 0 <= j < |l| ensures l[j] == (whole + rest)[j] {
      if j < |whole| {
        assert l[j] == (a + b + x)[j];
      }
    }
  }

  /** The end of the run of whitespace that starts at `i`: where the
      regular expression `\s*` stops. */
  function SpaceRunEnd(s: string, i: nat): (r: nat)
    requires i <= |s|
    ensures i <= r <= |s|
    ensures r < |s| ==> !IsSpace(s[r])
    ensures forall j :: i <= j < r ==> IsSpace(s[j])
    decreases |s| - i
  {
    if i < |s| && IsSpace(s[i]) then SpaceRunEnd(s, i + 1) else i
  }

  /** Trailing whitespace after a text that ends in a non-space is what
      `rstrip` removes. */
  lemma TrimEndAfter(b: string, w: string)
    requires b == [] || !IsSpace(b[|b| - 1])
    requires forall j :: 0 <= j < |w| ==> IsSpace(w[j])
    ensures TrimEnd(b + w) == b
  {
    var s := b + w;
    var r := TrimEnd(s);
    assert r == s[..|b|] == b;
  }

  /** Leading whitespace before a text that starts with a non-space is what
      `lstrip` removes. */
  lemma TrimStartBefore(w: string, b: string)
    requires forall j :: 0 <= j < |w| ==> IsSpace(w[j])
    requires b == [] || !IsSpace(b[0])
    ensures TrimStart(w + b) == b
  {
    var s := w + b;
    var r := TrimStart(s);
    assert forall j :: 0 <= j < |w| ==> s[j] == w[j];
    assert r != [] ==> r[0] == s[|s| - |r|];
    assert b != [] ==> s[|w|] == b[0];
    assert r == s[|w|..] == b;
  }

  /** Whitespace around a text that begins and ends with a non-space is what
      `strip` removes. */
  lemma StripAround(w: string, b: string, e: string)
    requires forall j :: 0 <= j < |w| ==> IsSpace(w[j])
    requires forall j :: 0 <= j < |e| ==> IsSpace(e[j])
    requires b != [] && !IsSpace(b[0]) && !IsSpace(b[|b| - 1])
    ensures Strip(w + b + e) == b
  {
    assert w + b + e == w + (b + e);
    TrimStartBefore(w, b + e);
    TrimEndAfter(b, e);
  }

  /** The end of the run of digits that starts at `i`. */
  function DigitRunEnd(s: string, i: nat): (r: nat)
    requires i <= |s|
    ensures i <= r <= |s|
    ensures r < |s| ==> !IsDigit(s[r])
    ensures forall j :: i <= j < r ==> IsDigit(s[j])
    decreases |s| - i
  {
    if i < |s| && IsDigit(s[i]) then DigitRunEnd(s, i + 1) else i
  }

  function DigitValue(c: char): nat
    requires IsDigit(c)
  {
    c as int - '0' as int
  }

  function DigitChar(d: nat): (c: char)
    requires d < 10
    ensures IsDigit(c) && DigitValue(c) == d
  {
    ('0' as int + d) as char
  }

  /** `int(s)` for a string of ASCII digits. */
  function DigitsValue(s: string): nat
    requires AllDigits(s)
  {
    if s == [] then 0 else DigitsValue(s[..|s| - 1]) * 10 + DigitValue(s[|s| - 1])
  }

  /** `str(n)` for a natural number. */
  function NatToString(n: nat): (r: string)
    ensures |r| >= 1 && AllDigits(r)
  {
    if n < 10 then [DigitChar(n)] else NatToString(n / 10) + [DigitChar(n % 10)]
  }

  /** `str(i)` for an integer. */
  function IntToString(i: int): string {
    if i < 0 then "-" + NatToString(-i) else NatToString(i)
  }

  /** Reading back the decimal form of a number gives the number. */
  lemma {:induction false} NatToStringRoundTrip(n: nat)
    ensures DigitsValue(NatToString(n)) == n
  {
    if n >= 10 {
      NatToStringRoundTrip(n / 10);
      var s := NatToString(n);
      assert s[..|s| - 1] == NatToString(n / 10);
    }
  }

}
