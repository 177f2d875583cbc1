/** The first half of the video-enhancement agent's `fallback_parsing`: the
    model's free text is cut into named sections at header lines. The
    sections form an insertion-ordered dictionary, as Python's `dict` is. */
module AnalysisSections {
  import opened Common
  import opened Text

  /** The words whose presence (in the lower-cased line) makes a line a header. */
  const HeaderWords: seq<string> := ["topics:", "sentiment:", "audience:", "key points:", "summary:"]

  /** Some word of `words` occurs in `s`. */
  predicate ContainsAny(s: string, words: seq<string>) {
    exists k :: 0 <= k < |words| && Contains(s, words[k])
  }

  /** A header line: its stripped form starts with '#' (which covers the '##'
      and '###' prefixes), or its lower-cased form contains a header word. */
  predicate IsHeader(line: string) {
    StartsWith(Strip(line), "#") || ContainsAny(Lower(line), HeaderWords)
  }

  /** The index of the first character at or after `i` that is not '#'. */
  function HashRunEnd(s: string, i: nat): (r: nat)
    requires i <= |s|
    ensures i <= r <= |s|
    ensures r < |s| ==> s[r] != '#'
    ensures forall j :: i <= j < r ==> s[j] == '#'
    decreases |s| - i
  {
    if i < |s| && s[i] == '#' then HashRunEnd(s, i + 1) else i
  }

  /** `re.sub(r'^#+\s*', '', s)`: a leading run of '#' and the whitespace
      after it go. */
  function DropHashes(s: string): string {
    if s != [] && s[0] == '#' then TrimStart(s[HashRunEnd(s, 0)..]) else s
  }

  /** `re.sub(r':$', '', s)` on a stripped string: one trailing ':' goes. */
  function DropColon(s: string): string {
    if s != [] && s[|s| - 1] == ':' then s[..|s| - 1] else s
  }

  /** The section a header line opens. */
  function SectionName(line: string): string {
    DropColon(DropHashes(Lower(Strip(line))))
  }

  /** An insertion-ordered dictionary from section names to their lines. */
  type Sections = seq<(string, seq<string>)>

  function Names(d: Sections): (r: seq<string>)
    ensures |r| == |d|
    ensures forall i :: 0 <= i < |d| ==> r[i] == d[i].0
  {
    seq(|d|, i requires 0 <= i < |d| => d[i].0)
  }

  /** The position of key `k`, if present. */
  function Find(d: Sections, k: string): (r: Option<nat>)
    ensures r.Some? ==> r.value < |d| && d[r.value].0 == k
    ensures r.None? <==> k !in Names(d)
    decreases |d|
  {
    if d == [] then None
    else if d[0].0 == k then Some(0)
    else match Find(d[1..], k)
      case None => None
      case Some(i) => Some(i + 1)
  }

  /** `d[k] = v`: an existing key keeps its position, a new key goes last. */
  function Put(d: Sections, k: string, v: seq<string>): Sections {
    match Find(d, k)
    case Some(i) => d[i := (k, v)]
    case None => d + [(k, v)]
  }

  ghost predicate UniqueNames(d: Sections) {
    forall i, j :: 0 <= i < j < |d| ==> d[i].0 != d[j].0
  }

  /** The state of the loop: the sections so far and the current section. */
  datatype Parse = Parse(sections: Sections, current: Option<string>)

  const Start: Parse := Parse([], None)

  /** Keys are unique and the current section is one of them. */
  ghost predicate Wf(p: Parse) {
    UniqueNames(p.sections) && (p.current.Some? ==> p.current.value in Names(p.sections))
  }

  lemma PutKeepsUnique(d: Sections, k: string, v: seq<string>)
    requires UniqueNames(d)
    ensures UniqueNames(Put(d, k, v)) && k in Names(Put(d, k, v))
    ensures Names(Put(d, k, v)) == if k in Names(d) then Names(d) else Names(d) + [k]
  {
    var r := Put(d, k, v);
    if k in Names(d) {
      assert Names(r) == Names(d);
    } else {
      assert Names(r) == Names(d) + [k];
      assert r[|d|].0 == k;
    }
  }

  /** What a line is to the loop: a header naming its section, or a body
      line in its stripped form (empty when the line is blank). */
  datatype Line = Header(name: string) | Body(text: string)

  function Classify(line: string): (r: Line)
    ensures r.Header? <==> IsHeader(line)
    ensures r.Header? ==> r.name == SectionName(line)
    ensures r.Body? ==> r.text == Strip(line)
  {
    if IsHeader(line) then Header(SectionName(line)) else Body(Strip(line))
  }

  function Classified(lines: seq<string>): (r: seq<Line>)
    ensures |r| == |lines|
    ensures forall i :: 0 <= i < |lines| ==> r[i] == Classify(lines[i])
  {
    seq(|lines|, i requires 0 <= i < |lines| => Classify(lines[i]))
  }

  /** One line of the loop: a header (re)opens its section with no lines and
      makes it current; a body line, when it is not blank and the current
      section has a non-empty name, is appended to that section. */
  function Step(p: Parse, l: Line): (q: Parse)
    requires Wf(p)
    ensures Wf(q)
  {
    match l
    case Header(name) =>
      PutKeepsUnique(p.sections, name, []);
      Parse(Put(p.sections, name, []), Some(name))
    case Body(text) =>
      if p.current.Some? && p.current.value != "" && text != "" then
        var i := Find(p.sections, p.current.value).value;
        var d := p.sections[i := (p.current.value, p.sections[i].1 + [text])];
        assert Names(d) == Names(p.sections);
        Parse(d, p.current)
      else p
  }

  /** The loop over the remaining lines. */
  function Scan(p: Parse, ls: seq<Line>): (q: Parse)
    requires Wf(p)
    ensures Wf(q)
    decreases |ls|
  {
    if ls == [] then p else Scan(Step(p, ls[0]), ls[1..])
  }

  /** The sections of a text split into lines. */
  function ParseSections(lines: seq<string>): Sections {
    Scan(Start, Classified(lines)).sections
  }

  /** A blank line is a body line: it neither starts with '#' nor holds a
      header word. */
  lemma BlankIsBody()
    ensures Classify("") == Body("")
  {
    assert Strip("") == "" by { assert TrimStart("") == ""; }
    assert Lower("") == "";
    forall k | 0 <= k < |HeaderWords|
      ensures !Contains("", HeaderWords[k])
    {
      assert |HeaderWords[k]| > 0;
    }
  }

  /** A text of one blank line has no sections. */
  lemma BlankHasNoSections()
    ensures ParseSections([""]) == []
  {
    BlankIsBody();
    BodyLineOnly("");
  }

  /** Before any header, a line belongs to no section. */
  lemma BodyLineOnly(line: string)
    requires !IsHeader(line)
    ensures ParseSections([line]) == []
  {
    assert Classified([line]) == [Classify(line)];
    ScanBodyFromStart(Strip(line));
  }

  lemma ScanBodyFromStart(text: string)
    ensures Scan(Start, [Body(text)]) == Start
  {
    var ls := [Body(text)];
    assert Step(Start, ls[0]) == Start;
    assert ls[1..] == [];
  }

  /** The section-building loop of `fallback_parsing`. */
  method BuildSections(lines: seq<string>) returns (sections: Sections)
    ensures sections == ParseSections(lines)
  {
    ghost var ls := Classified(lines);
    sections := [];
    var current: Option<string> := None;
    var i := 0;
    while i < |lines|
      invariant 0 <= i <= |lines|
      invariant Wf(Parse(sections, current))
      invariant Scan(Parse(sections, current), ls[i..]) == Scan(Start, ls)
    {
      ScanAt(Parse(sections, current), ls, i);
      var l := Classify(lines[i]);
      sections, current := Advance(sections, current, l);
      i := i + 1;
    }
    assert ls[i..] == [];
  }

  /** The body of the loop for one classified line. */
  method Advance(sections: Sections, current: Option<string>, l: Line)
    returns (sections': Sections, current': Option<string>)
    requires Wf(Parse(sections, current))
    ensures Parse(sections', current') == Step(Parse(sections, current), l)
  {
    sections', current' := sections, current;
    match l
    case Header(name) =>
      sections' := Put(sections, name, []);
      current' := Some(name);
    case Body(text) =>
      if current.Some? && current.value != "" && text != "" {
        var k := Find(sections, current.value).value;
        sections' := sections[k := (current.value, sections[k].1 + [text])];
      }
  }

  lemma ScanAt(p: Parse, ls: seq<Line>, i: nat)
    requires Wf(p) && i < |ls|
    ensures Scan(p, ls[i..]) == Scan(Step(p, ls[i]), ls[i + 1..])
  {
    assert ls[i..][0] == ls[i];
    assert ls[i..][1..] == ls[i + 1..];
  }

  /** Lines before the first header are discarded, whatever they hold. */
  lemma PreambleDiscarded(pre: seq<string>, rest: seq<string>)
    requires forall j :: 0 <= j < |pre| ==> !IsHeader(pre[j])
    ensures ParseSections(pre + rest) == ParseSections(rest)
  {
    var ls := Classified(pre + rest);
    assert ls == Classified(pre) + Classified(rest);
    BodiesIgnored(Classified(pre), Classified(rest));
  }

  lemma {:induction false} BodiesIgnored(pre: seq<Line>, rest: seq<Line>)
    requires forall j :: 0 <= j < |pre| ==> pre[j].Body?
    ensures Scan(Start, pre + rest) == Scan(Start, rest)
    decreases |pre|
  {
    if pre != [] {
      var all := pre + rest;
      assert all[0] == pre[0] && all[1..] == pre[1..] + rest;
      assert Step(Start, pre[0]) == Start;
      calc {
        Scan(Start, all);
        Scan(Step(Start, all[0]), all[1..]);
        Scan(Start, pre[1..] + rest);
        { BodiesIgnored(pre[1..], rest); }
        Scan(Start, rest);
      }
    } else {
      assert pre + rest == rest;
    }
  }

  /** A header line, new or repeated, leaves its section current and empty;
      a repeated name keeps its place in the order, a new one goes last. */
  lemma HeaderResets(p: Parse, name: string)
    requires Wf(p)
    ensures var q := Step(p, Header(name));
      && q.current == Some(name)
      && Find(q.sections, name).Some? && q.sections[Find(q.sections, name).value].1 == []
      && Names(q.sections) == if name in Names(p.sections) then Names(p.sections) else Names(p.sections) + [name]
  {
    PutKeepsUnique(p.sections, name, []);
    var d := Put(p.sections, name, []);
    var i := Find(d, name).value;
    if name in Names(p.sections) {
      var j := Find(p.sections, name).value;
      assert d[j] == (name, []);
      assert i == j;
    } else {
      assert d[|p.sections|] == (name, []);
      assert i == |p.sections|;
    }
  }

  /** Every line kept in a section is non-blank and already stripped. */
  ghost predicate CleanLines(d: Sections) {
    forall i, j :: 0 <= i < |d| && 0 <= j < |d[i].1| ==> d[i].1[j] != "" && Strip(d[i].1[j]) == d[i].1[j]
  }

  ghost predicate CleanBodies(ls: seq<Line>) {
    forall j :: 0 <= j < |ls| && ls[j].Body? ==> Strip(ls[j].text) == ls[j].text
  }

  lemma {:induction false} ScanClean(p: Parse, ls: seq<Line>)
    requires Wf(p) && CleanLines(p.sections) && CleanBodies(ls)
    ensures CleanLines(Scan(p, ls).sections)
    decreases |ls|
  {
    if ls != [] {
      StepClean(p, ls[0]);
      assert CleanBodies(ls[1..]) by {
        forall j | 0 <= j < |ls[1..]| && ls[1..][j].Body?
          ensures Strip(ls[1..][j].text) == ls[1..][j].text
        {
          assert ls[1..][j] == ls[j + 1];
        }
      }
      ScanClean(Step(p, ls[0]), ls[1..]);
    }
  }

  /** One line of the loop keeps the sections clean. */
  lemma StepClean(p: Parse, l: Line)
    requires Wf(p) && CleanLines(p.sections)
    requires l.Body? ==> Strip(l.text) == l.text
    ensures CleanLines(Step(p, l).sections)
  {
    if l.Header? {
      PutClean(p.sections, l.name);
    } else if p.current.Some? && p.current.value != "" && l.text != "" {
      var k := Find(p.sections, p.current.value).value;
      AppendClean(p.sections, k, l.text);
    }
  }

  lemma PutClean(d: Sections, name: string)
    requires CleanLines(d)
    ensures CleanLines(Put(d, name, []))
  {
    var r := Put(d, name, []);
    forall i, j | 0 <= i < |r| && 0 <= j < |r[i].1|
      ensures r[i].1[j] != "" && Strip(r[i].1[j]) == r[i].1[j]
    {
      assert r[i] == d[i];
    }
  }

  lemma AppendClean(d: Sections, k: nat, text: string)
    requires k < |d| && CleanLines(d)
    requires text != "" && Strip(text) == text
    ensures CleanLines(d[k := (d[k].0, d[k].1 + [text])])
  {
    var r := d[k := (d[k].0, d[k].1 + [text])];
    forall i, j | 0 <= i < |r| && 0 <= j < |r[i].1|
      ensures r[i].1[j] != "" && Strip(r[i].1[j]) == r[i].1[j]
    {
      if i == k && j == |d[k].1| {
        assert r[i].1[j] == text;
      } else {
        assert r[i].1[j] == d[i].1[j];
      }
    }
  }

  /** The sections of any text hold only non-blank stripped lines. */
  lemma SectionsClean(lines: seq<string>)
    ensures CleanLines(ParseSections(lines))
  {
    var ls := Classified(lines);
    forall j | 0 <= j < |ls| && ls[j].Body?
      ensures Strip(ls[j].text) == ls[j].text
    {
      StripFixedPoint(lines[j]);
    }
    ScanClean(Start, ls);
  }

  /** No line of any section holds a line break. */
  ghost predicate NoBreakLines(d: Sections) {
    forall i, j :: 0 <= i < |d| && 0 <= j < |d[i].1| ==> '\n' !in d[i].1[j]
  }

  ghost predicate NoBreakBodies(ls: seq<Line>) {
    forall j :: 0 <= j < |ls| && ls[j].Body? ==> '\n' !in ls[j].text
  }

  lemma {:induction false} ScanNoBreak(p: Parse, ls: seq<Line>)
    requires Wf(p) && NoBreakLines(p.sections) && NoBreakBodies(ls)
    ensures NoBreakLines(Scan(p, ls).sections)
    decreases |ls|
  {
    if ls != [] {
      var q := Step(p, ls[0]);
      if ls[0].Header? {
        forall i, j | 0 <= i < |q.sections| && 0 <= j < |q.sections[i].1|
          ensures '\n' !in q.sections[i].1[j]
        {
          assert q.sections[i].0 != ls[0].name ==> q.sections[i] == p.sections[i];
        }
      }
      ScanNoBreak(q, ls[1..]);
    }
  }

  /** The lines of a text split at its line breaks hold none, and neither
      do the sections made from them. */
  lemma SectionsNoBreak(raw: string)
    ensures NoBreakLines(ParseSections(Split(raw, {'\n'})))
  {
    var lines := Split(raw, {'\n'});
    var ls := Classified(lines);
    forall j | 0 <= j < |ls| && ls[j].Body?
      ensures '\n' !in ls[j].text
    {
      assert NoneIn(lines[j], {'\n'});
      var a, b := StripSlice(lines[j]);
    }
    ScanNoBreak(Start, ls);
  }

  /** The names that the header lines among `ls` give. */
  function HeaderNames(ls: seq<Line>): set<string>
    decreases |ls|
  {
    if ls == [] then {}
    else (if ls[0].Header? then {ls[0].name} else {}) + HeaderNames(ls[1..])
  }

  /** A step adds the name of a new header last and otherwise keeps the names. */
  lemma StepNames(p: Parse, l: Line)
    requires Wf(p)
    ensures Names(Step(p, l).sections) ==
      if l.Header? && l.name !in Names(p.sections) then Names(p.sections) + [l.name] else Names(p.sections)
  {
    if l.Header? {
      HeaderResets(p, l.name);
    } else if p.current.Some? && p.current.value != "" && l.text != "" {
      var i := Find(p.sections, p.current.value).value;
      var d := p.sections[i := (p.current.value, p.sections[i].1 + [l.text])];
      assert Names(d) == Names(p.sections);
    }
  }

  lemma {:induction false} ScanNames(p: Parse, ls: seq<Line>, k: string)
    requires Wf(p)
    ensures k in Names(Scan(p, ls).sections) <==> k in Names(p.sections) || k in HeaderNames(ls)
    decreases |ls|
  {
    if ls != [] {
      var q := Step(p, ls[0]);
      StepNames(p, ls[0]);
      ScanNames(q, ls[1..], k);
    }
  }

  lemma {:induction false} HeaderNamesIff(ls: seq<Line>, k: string)
    ensures k in HeaderNames(ls) <==> exists j :: 0 <= j < |ls| && ls[j] == Header(k)
    decreases |ls|
  {
    if ls != [] {
      HeaderNamesIff(ls[1..], k);
      if exists j :: 1 <= j < |ls| && ls[j] == Header(k) {
        var j :| 1 <= j < |ls| && ls[j] == Header(k);
        assert ls[1..][j - 1] == Header(k);
      }
    }
  }

  /** The sections are exactly those named by the header lines: every header
      opens a section, and every section was opened by a header. */
  lemma SectionNames(lines: seq<string>, k: string)
    ensures k in Names(ParseSections(lines)) <==>
      exists j :: 0 <= j < |lines| && IsHeader(lines[j]) && SectionName(lines[j]) == k
  {
    var ls := Classified(lines);
    ScanNames(Start, ls, k);
    HeaderNamesIff(ls, k);
  }
}
