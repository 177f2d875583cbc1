/** `_format_transcript_for_prompt`: the transcript rendered one timestamped
    entry per line, cut off with a marker once a character budget is spent. */
module TranscriptPrompt {
  import opened Text
  import opened Timestamps
  import opened AnalysisRecords

  const Marker: string := "...[transcript truncated due to length]..."

  /** The default token budget; the character budget is four times it. */
  const DefaultMaxTokens: int := 6000

  /** `"<H:MM:SS of int(start)>: text"`. */
  function EntryLine(e: Entry): string {
    FormatSeconds(e.start) + ": " + e.text
  }

  /** The rendered line of every entry, in order. */
  function Lines(ts: seq<Entry>): (r: seq<string>)
    ensures |r| == |ts|
  {
    if ts == [] then [] else [EntryLine(ts[0])] + Lines(ts[1..])
  }

  lemma {:induction false} LinesAt(ts: seq<Entry>, i: nat)
    requires i < |ts|
    ensures Lines(ts)[i] == EntryLine(ts[i])
  {
    if i > 0 {
      LinesAt(ts[1..], i - 1);
    }
  }

  /** The number of characters in a list of lines. */
  function TotalLength(ls: seq<string>): nat {
    if ls == [] then 0 else |ls[0]| + TotalLength(ls[1..])
  }

  /** The lines the loop appends from the remaining lines `ls`, when
      `total` characters have been counted so far: each line is appended,
      and if the count then exceeds `limit` the marker follows and the loop
      stops. */
  function Kept(ls: seq<string>, limit: int, total: int): seq<string>
    decreases |ls|
  {
    if ls == [] then []
    else if total + |ls[0]| > limit then [ls[0], Marker]
    else [ls[0]] + Kept(ls[1..], limit, total + |ls[0]|)
  }

  /** `_format_transcript_for_prompt(transcript, max_tokens)`. */
  method FormatTranscript(transcript: seq<Entry>, maxTokens: int) returns (r: string)
    ensures r == Join("\n", Kept(Lines(transcript), maxTokens * 4, 0))
  {
    var entries := KeepEntries(transcript, maxTokens * 4);
    r := Join("\n", entries);
  }

  /** The loop of `_format_transcript_for_prompt`: the formatted entries and
      the marker, before they are joined. */
  method KeepEntries(transcript: seq<Entry>, limit: int) returns (entries: seq<string>)
    ensures entries == Kept(Lines(transcript), limit, 0)
  {
    entries := [];
    var total := 0;
    ghost var rest := Lines(transcript);
    var i := 0;
    while i < |transcript|
      invariant 0 <= i <= |transcript|
      invariant rest == Lines(transcript[i..])
      invariant entries + Kept(rest, limit, total) == Kept(Lines(transcript), limit, 0)
    {
      var entry := EntryLine(transcript[i]);
      LinesFrom(transcript, i);
      var over;
      entries, total, over := Append(entries, total, entry, limit, rest);
      if over {
        break;
      }
      rest := rest[1..];
      i := i + 1;
    }
    if i == |transcript| {
      assert rest == [];
      assert entries + [] == entries;
    }
  }

  /** One pass of the loop: the entry is appended and counted, and the
      marker follows when the count passes the budget. */
  method Append(entries: seq<string>, total: int, entry: string, limit: int, ghost rest: seq<string>)
    returns (entries': seq<string>, total': int, over: bool)
    requires rest != [] && rest[0] == entry
    ensures over <==> total + |entry| > limit
    ensures total' == total + |entry|
    ensures over ==> entries' == entries + Kept(rest, limit, total)
    ensures !over ==> entries' + Kept(rest[1..], limit, total') == entries + Kept(rest, limit, total)
  {
    KeptAdvance(rest, entries, entry, limit, total);
    entries' := entries + [entry];
    total' := total + |entry|;
    over := total' > limit;
    if over {
      entries' := entries' + [Marker];
    }
  }

  lemma LinesFrom(ts: seq<Entry>, i: nat)
    requires i < |ts|
    ensures Lines(ts[i..]) != [] && Lines(ts[i..])[0] == EntryLine(ts[i])
    ensures Lines(ts[i..])[1..] == Lines(ts[i + 1..])
  {
    assert ts[i..][1..] == ts[i + 1..];
  }

  /** One pass of the loop, on the remaining lines. */
  lemma KeptAdvance(rest: seq<string>, entries: seq<string>, entry: string, limit: int, total: int)
    requires rest != [] && rest[0] == entry
    ensures total + |entry| > limit ==> entries + [entry] + [Marker] == entries + Kept(rest, limit, total)
    ensures total + |entry| <= limit ==>
      entries + [entry] + Kept(rest[1..], limit, total + |entry|) == entries + Kept(rest, limit, total)
  {
  }

  lemma {:induction false} TotalLengthPrefix(ls: seq<string>, k: nat)
    requires 0 < k <= |ls|
    ensures TotalLength(ls[..k]) == |ls[0]| + TotalLength(ls[1..][..k - 1])
  {
    assert ls[..k][1..] == ls[1..][..k - 1];
  }

  /** Line `k` is the one that takes the count past the budget, and the loop
      keeps the lines up to it followed by the marker. */
  ghost predicate CutAt(ls: seq<string>, limit: int, total: int, k: int) {
    && 0 <= k < |ls|
    && Kept(ls, limit, total) == ls[..k + 1] + [Marker]
    && total + TotalLength(ls[..k + 1]) > limit
    && (k == 0 || total + TotalLength(ls[..k]) <= limit)
  }

  /** The shape of the formatted transcript. When all lines fit in the budget
      every line is kept and there is no marker. Otherwise the lines are kept
      up to and including the first one that takes the count past the budget,
      and the marker comes last. */
  lemma {:induction false} KeptShape(ls: seq<string>, limit: int, total: int)
    ensures ls == [] || total + TotalLength(ls) <= limit ==> Kept(ls, limit, total) == ls
    ensures ls != [] && total + TotalLength(ls) > limit ==> exists k :: CutAt(ls, limit, total, k)
    decreases |ls|
  {
    if ls != [] {
      var line := ls[0];
      var rest := ls[1..];
      assert ls == [line] + rest;
      if total + |line| > limit {
        assert TotalLength(ls[..1]) == |line| by {
          assert ls[..1][1..] == [];
        }
        assert ls[..1] == [line];
        assert CutAt(ls, limit, total, 0);
      } else {
        KeptShape(rest, limit, total + |line|);
        if total + TotalLength(ls) > limit {
          var k :| CutAt(rest, limit, total + |line|, k);
          assert ls[..k + 2] == [line] + rest[..k + 1];
          TotalLengthPrefix(ls, k + 2);
          TotalLengthPrefix(ls, k + 1);
          assert CutAt(ls, limit, total, k + 1);
        }
      }
    }
  }
}
