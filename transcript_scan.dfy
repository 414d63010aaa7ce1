/** The tolerant scan at the heart of SpeechToTextService.transcribe: the
    speech provider answers with JSON objects written back to back, and the
    scan cuts them out by counting brace depth, hands each one to a decoder,
    and keeps the latest non-empty text until an object marked final. */
module TranscriptScan {
  import opened Wrappers
  import opened JavaLang

  /** What the decoder reads from one object: `optString("text", "")` and
      `optBoolean("is_final", false)`. */
  datatype Segment = Segment(text: string, isFinal: bool)

  /** The decoder for one object: `new JSONObject(objStr)` followed by the two
      reads above; None when the slice does not parse. */
  type Decoder = string -> Option<Segment>

  /** The two variables the inner loop keeps: braceCount and inString. */
  datatype Nesting = Nesting(depth: int, inString: bool)

  /** The inner loop's update for one char: every '"' flips the string state,
      and braces count only outside strings. */
  function Step(n: Nesting, c: char): Nesting
  {
    var inString := if c == '"' then !n.inString else n.inString;
    var depth :=
      if inString then n.depth
      else if c == '{' then n.depth + 1
      else if c == '}' then n.depth - 1
      else n.depth;
    Nesting(depth, inString)
  }

  /** The inner loop's variables once it has read s[start..k] (k
      exclusive), starting from braceCount = 0 and inString = false. */
  function NestingAfter(s: string, start: nat, k: nat): Nesting
    requires start <= k <= |s|
    decreases k - start
  {
    if k == start then Nesting(0, false) else Step(NestingAfter(s, start, k - 1), s[k - 1])
  }

  /** The string state is the parity of the quotes read so far: escapes are
      not recognised. */
  lemma {:induction false} InStringIsQuoteParity(s: string, start: nat, k: nat)
    requires start <= k <= |s|
    ensures NestingAfter(s, start, k).inString <==> Count(s[start..k], '"') % 2 == 1
    decreases k - start
  {
    if k > start {
      InStringIsQuoteParity(s, start, k - 1);
      assert s[start..k] == s[start..k - 1] + [s[k - 1]];
      CountSnoc(s[start..k - 1], s[k - 1], '"');
    }
  }

  /** A brace read after an odd number of quotes does not change the depth. */
  lemma QuotedBraceIgnored(s: string, start: nat, k: nat)
    requires start <= k < |s| && (s[k] == '{' || s[k] == '}')
    requires Count(s[start..k], '"') % 2 == 1
    ensures NestingAfter(s, start, k + 1).depth == NestingAfter(s, start, k).depth
  {
    InStringIsQuoteParity(s, start, k);
  }

  /** The scan state depends only on the characters read. */
  lemma {:induction false} NestingPrefix(p: string, q: string, start: nat, k: nat)
    requires start <= k <= |p|
    ensures NestingAfter(p + q, start, k) == NestingAfter(p, start, k)
    decreases k - start
  {
    if k > start {
      NestingPrefix(p, q, start, k - 1);
      assert (p + q)[k - 1] == p[k - 1];
    }
  }

  /** `s.indexOf('{', from)`, with None for -1. */
  function NextOpen(s: string, from: nat): (r: Option<nat>)
    ensures r.Some? ==> from <= r.value < |s| && s[r.value] == '{'
    decreases |s| - from
  {
    if from >= |s| then None
    else if s[from] == '{' then Some(from)
    else NextOpen(s, from + 1)
  }

  /** indexOf finds the first '{': none stands between `from` and the index
      found, or after `from` at all when it finds none. */
  lemma {:induction false} NextOpenFirst(s: string, from: nat)
    ensures forall p :: from <= p < |s| && (NextOpen(s, from).None? || p < NextOpen(s, from).value) ==> s[p] != '{'
    decreases |s| - from
  {
    if from < |s| && s[from] != '{' {
      NextOpenFirst(s, from + 1);
    }
  }

  /** The inner loop's braceCount once it has read s[start..k] inclusive. */
  function Depth(s: string, start: nat, k: nat): int
    requires start <= k < |s|
  {
    NestingAfter(s, start, k + 1).depth
  }

  /** The inner loop breaks at `end`: past `start`, the depth is back to 0. */
  predicate ClosesAt(s: string, start: nat, end: nat)
    requires start <= end < |s|
  {
    end > start && Depth(s, start, end) == 0
  }

  /** The first index at or after `end` where the inner loop breaks. */
  function CloseFrom(s: string, start: nat, end: nat): (r: Option<nat>)
    requires start <= end <= |s|
    ensures r.Some? ==> end <= r.value < |s| && ClosesAt(s, start, r.value)
    decreases |s| - end
  {
    if end == |s| then None
    else if ClosesAt(s, start, end) then Some(end)
    else CloseFrom(s, start, end + 1)
  }

  /** CloseFrom finds the first breaking index. */
  lemma {:induction false} CloseFromFirst(s: string, start: nat, end: nat)
    requires start <= end <= |s|
    ensures forall k :: end <= k < |s| && (CloseFrom(s, start, end).None? || k < CloseFrom(s, start, end).value) ==>
      !ClosesAt(s, start, k)
    decreases |s| - end
  {
    if end < |s| && !ClosesAt(s, start, end) {
      CloseFromFirst(s, start, end + 1);
    }
  }

  /** The index of the brace that closes the object opened at `start`: the
      first index past `start` where the depth returns to 0, or None when the
      input ends first (an unbalanced trailing object). */
  function MatchClose(s: string, start: nat): (r: Option<nat>)
    requires start < |s|
    ensures r.Some? ==> start < r.value < |s| && Depth(s, start, r.value) == 0
  {
    CloseFrom(s, start, start)
  }

  /** The match is the first index past `start` where the depth is 0; with
      no match, the depth never returns to 0 before the input ends. */
  lemma MatchCloseFirst(s: string, start: nat)
    requires start < |s|
    ensures MatchClose(s, start).Some? ==>
      forall k :: start < k < MatchClose(s, start).value ==> Depth(s, start, k) != 0
    ensures MatchClose(s, start).None? ==> forall k :: start < k < |s| ==> Depth(s, start, k) != 0
  {
    var r := MatchClose(s, start);
    CloseFromFirst(s, start, start);
    forall k | start < k < |s| && (r.None? || k < r.value)
      ensures Depth(s, start, k) != 0
    {
      assert !ClosesAt(s, start, k);
    }
  }

  /** Between an opening brace and its match the depth stays at least 1. */
  lemma {:induction false} DepthPositive(s: string, start: nat, k: nat)
    requires start <= k < |s| && s[start] == '{'
    requires forall j :: start < j <= k ==> !ClosesAt(s, start, j)
    ensures Depth(s, start, k) >= 1
  {
    if k == start {
      assert NestingAfter(s, start, start) == Nesting(0, false);
    } else {
      DepthPositive(s, start, k - 1);
      assert !ClosesAt(s, start, k);
    }
  }

  /** The matching index holds a '}' read outside any string, so the slice
      s[start..end] is a candidate JSON object text. */
  lemma MatchIsClosingBrace(s: string, start: nat)
    requires start < |s| && s[start] == '{'
    requires MatchClose(s, start).Some?
    ensures s[MatchClose(s, start).value] == '}'
    ensures forall k :: start <= k < MatchClose(s, start).value ==> Depth(s, start, k) >= 1
  {
    var e := MatchClose(s, start).value;
    MatchCloseFirst(s, start);
    forall k | start <= k < e
      ensures Depth(s, start, k) >= 1
    {
      DepthPositive(s, start, k);
    }
    assert Depth(s, start, e - 1) >= 1;
  }

  /** The bounds [start, end] (inclusive) of one top-level object. */
  datatype Span = Span(start: nat, end: nat)

  /** One iteration of the outer loop from `idx`: the first '{' at or after
      idx and its matching brace. None when idx is past the end, no '{' is
      left, or that '{' is never closed: the three ways the loop stops
      without a final object. */
  function NextObject(s: string, idx: nat): (r: Option<Span>)
    ensures r.Some? ==> idx <= r.value.start < r.value.end < |s|
    ensures r.None? <==> idx >= |s| || NextOpen(s, idx).None? || MatchClose(s, NextOpen(s, idx).value).None?
    ensures r.Some? ==> NextOpen(s, idx) == Some(r.value.start) && MatchClose(s, r.value.start) == Some(r.value.end)
  {
    if idx >= |s| then None
    else match NextOpen(s, idx)
      case None => None
      case Some(start) =>
        match MatchClose(s, start)
        case None => None
        case Some(end) => Some(Span(start, end))
  }

  /** `respStr.substring(start, end + 1)`: the object's text, braces
      included. */
  function ObjectText(s: string, o: Span): string
    requires o.start <= o.end < |s|
  {
    s[o.start..o.end + 1]
  }

  /** The top-level objects the scan cuts out of `s` from `idx` on, ignoring
      the early stop on a final object. */
  function Spans(s: string, idx: nat): (sp: seq<Span>)
    ensures forall i :: 0 <= i < |sp| ==> idx <= sp[i].start < sp[i].end < |s|
    decreases |s| - idx
  {
    match NextObject(s, idx)
    case None => []
    case Some(o) => [o] + Spans(s, o.end + 1)
  }

  /** Each object the scan cuts out opens with '{' and ends at its matching
      brace. */
  lemma {:induction false} SpansMatched(s: string, idx: nat)
    ensures forall i :: 0 <= i < |Spans(s, idx)| ==>
      s[Spans(s, idx)[i].start] == '{' && MatchClose(s, Spans(s, idx)[i].start) == Some(Spans(s, idx)[i].end)
    decreases |s| - idx
  {
    if NextObject(s, idx).Some? {
      SpansMatched(s, NextObject(s, idx).value.end + 1);
    }
  }

  /** The objects come in order and do not overlap, so an object nested in
      another is consumed inside its parent and never cut out on its own. */
  lemma {:induction false} SpansOrdered(s: string, idx: nat)
    ensures forall i, j :: 0 <= i < j < |Spans(s, idx)| ==> Spans(s, idx)[i].end < Spans(s, idx)[j].start
    decreases |s| - idx
  {
    if NextObject(s, idx).Some? {
      SpansOrdered(s, NextObject(s, idx).value.end + 1);
    }
  }

  /** Text outside the objects is skipped: no '{' stands before the first
      object or between two consecutive ones. */
  lemma {:induction false} SpansGaps(s: string, idx: nat)
    ensures |Spans(s, idx)| > 0 ==> forall p :: idx <= p < Spans(s, idx)[0].start ==> s[p] != '{'
    ensures forall i, p :: 0 <= i < |Spans(s, idx)| - 1 && Spans(s, idx)[i].end < p < Spans(s, idx)[i + 1].start ==> s[p] != '{'
    decreases |s| - idx
  {
    match NextObject(s, idx)
    case None =>
    case Some(o) =>
      NextOpenFirst(s, idx);
      SpansGaps(s, o.end + 1);
      var sp := Spans(s, idx);
      var rest := Spans(s, o.end + 1);
      assert sp == [o] + rest;
      forall i, p | 0 <= i < |sp| - 1 && sp[i].end < p < sp[i + 1].start
        ensures s[p] != '{'
      {
        if i > 0 {
          assert sp[i] == rest[i - 1] && sp[i + 1] == rest[i];
        }
      }
  }

  /** Where the scan looks for the next '{' once every object in Spans has
      been cut out. */
  function ResumeIndex(s: string, idx: nat): nat {
    var sp := Spans(s, idx);
    if sp == [] then idx else sp[|sp| - 1].end + 1
  }

  /** Spans lists every object: after the last one the outer loop finds no
      further object (the input ends, no '{' follows, or the '{' that follows
      is never closed). */
  lemma {:induction false} SpansStop(s: string, idx: nat)
    ensures NextObject(s, ResumeIndex(s, idx)).None?
    decreases |s| - idx
  {
    if NextObject(s, idx).Some? {
      var o := NextObject(s, idx).value;
      SpansStop(s, o.end + 1);
      assert ResumeIndex(s, idx) == ResumeIndex(s, o.end + 1);
    }
  }

  /** What the decoder makes of each top-level object, in order. */
  function Updates(s: string, idx: nat, decode: Decoder): seq<Option<Segment>>
    decreases |s| - idx
  {
    match NextObject(s, idx)
    case None => []
    case Some(o) => [decode(ObjectText(s, o))] + Updates(s, o.end + 1, decode)
  }

  /** Update i is the decoder applied to the text of object i, braces
      included. */
  lemma {:induction false} UpdatesAt(s: string, idx: nat, decode: Decoder)
    ensures |Updates(s, idx, decode)| == |Spans(s, idx)|
    ensures forall i :: 0 <= i < |Spans(s, idx)| ==>
      Updates(s, idx, decode)[i] == decode(ObjectText(s, Spans(s, idx)[i]))
    decreases |s| - idx
  {
    if NextObject(s, idx).Some? {
      var o := NextObject(s, idx).value;
      UpdatesAt(s, o.end + 1, decode);
      var sp := Spans(s, idx);
      var u := Updates(s, idx, decode);
      assert sp == [o] + Spans(s, o.end + 1);
      assert u == [decode(ObjectText(s, o))] + Updates(s, o.end + 1, decode);
      forall i | 0 <= i < |sp|
        ensures u[i] == decode(ObjectText(s, sp[i]))
      {
        if i > 0 {
          assert sp[i] == Spans(s, o.end + 1)[i - 1];
          assert u[i] == Updates(s, o.end + 1, decode)[i - 1];
        }
      }
    }
  }

  /** A decoded object carrying non-empty text. */
  predicate HasText(o: Option<Segment>) {
    o.Some? && o.value.text != []
  }

  /** A decoded object carrying non-empty text and is_final = true. */
  predicate IsFinalText(o: Option<Segment>) {
    HasText(o) && o.value.isFinal
  }

  /** The first update that has text and is final. */
  function FirstFinal(xs: seq<Option<Segment>>): (r: Option<nat>)
    ensures r.Some? ==> r.value < |xs| && IsFinalText(xs[r.value])
    ensures forall j :: 0 <= j < |xs| && (r.None? || j < r.value) ==> !IsFinalText(xs[j])
  {
    if xs == [] then None
    else if IsFinalText(xs[0]) then Some(0)
    else match FirstFinal(xs[1..])
      case None => None
      case Some(k) => Some(k + 1)
  }

  /** The last update that has text. */
  function LastText(xs: seq<Option<Segment>>): (r: Option<nat>)
    ensures r.Some? ==> r.value < |xs| && HasText(xs[r.value])
    ensures forall j :: 0 <= j < |xs| && (r.None? || j > r.value) ==> !HasText(xs[j])
  {
    if xs == [] then None
    else match LastText(xs[1..])
      case Some(k) => Some(k + 1)
      case None => if HasText(xs[0]) then Some(0) else None
  }

  /** The transcript the stream `xs` should yield, stated without the loop:
      the text of the first final update; failing that the text of the last
      update that has text; failing that `current`. */
  function Select(current: string, xs: seq<Option<Segment>>): string
  {
    match FirstFinal(xs)
    case Some(m) => xs[m].value.text
    case None =>
      match LastText(xs)
      case Some(k) => xs[k].value.text
      case None => current
  }

  /** The scan of transcribe from index `idx` with the transcript so far,
      written as recursion over the outer loop's iterations. */
  function ScanFrom(s: string, idx: nat, transcript: string, decode: Decoder): string
    decreases |s| - idx
  {
    match NextObject(s, idx)
    case None => transcript
    case Some(o) =>
      var obj := decode(ObjectText(s, o));
      if IsFinalText(obj) then obj.value.text
      else ScanFrom(s, o.end + 1, if HasText(obj) then obj.value.text else transcript, decode)
  }

  /** Selecting over a stream that starts with `x`. */
  lemma SelectCons(current: string, x: Option<Segment>, xs: seq<Option<Segment>>)
    ensures Select(current, [x] + xs) ==
      if IsFinalText(x) then x.value.text
      else Select(if HasText(x) then x.value.text else current, xs)
  {
    assert ([x] + xs)[1..] == xs;
  }

  /** The scan returns exactly the selection over the update stream. */
  lemma {:induction false} ScanSelects(s: string, idx: nat, transcript: string, decode: Decoder)
    ensures ScanFrom(s, idx, transcript, decode) == Select(transcript, Updates(s, idx, decode))
    decreases |s| - idx
  {
    match NextObject(s, idx)
    case None =>
    case Some(o) =>
      var obj := decode(ObjectText(s, o));
      var rest := Updates(s, o.end + 1, decode);
      assert Updates(s, idx, decode) == [obj] + rest;
      SelectCons(transcript, obj, rest);
      if !IsFinalText(obj) {
        ScanSelects(s, o.end + 1, if HasText(obj) then obj.value.text else transcript, decode);
      }
  }

  /** The transcript is empty exactly when no object decodes with text. */
  lemma ScanEmptyIffNoText(s: string, decode: Decoder)
    ensures ScanFrom(s, 0, "", decode) == [] <==>
      forall i :: 0 <= i < |Updates(s, 0, decode)| ==> !HasText(Updates(s, 0, decode)[i])
  {
    ScanSelects(s, 0, "", decode);
  }

  /** Some object from `idx` on has non-empty text and is final, so the scan
      stops there. */
  predicate EndsOnFinal(s: string, idx: nat, decode: Decoder) {
    FirstFinal(Updates(s, idx, decode)).Some?
  }

  /** indexOf finds the same brace when more text is appended. */
  lemma NextOpenPrefix(p: string, q: string, from: nat)
    requires NextOpen(p, from).Some?
    ensures NextOpen(p + q, from) == NextOpen(p, from)
    decreases |p| - from
  {
    if p[from] != '{' {
      NextOpenPrefix(p, q, from + 1);
    }
  }

  /** The matching brace is found without looking past it. */
  lemma {:induction false} CloseFromPrefix(p: string, q: string, start: nat, end: nat)
    requires start <= end <= |p|
    requires CloseFrom(p, start, end).Some?
    ensures CloseFrom(p + q, start, end) == CloseFrom(p, start, end)
    decreases |p| - end
  {
    NestingPrefix(p, q, start, end + 1);
    if !ClosesAt(p, start, end) {
      CloseFromPrefix(p, q, start, end + 1);
    }
  }

  /** The next object is found without looking past its closing brace. */
  lemma NextObjectPrefix(p: string, q: string, idx: nat)
    requires NextObject(p, idx).Some?
    ensures NextObject(p + q, idx) == NextObject(p, idx)
  {
    var start := NextOpen(p, idx).value;
    NextOpenPrefix(p, q, idx);
    CloseFromPrefix(p, q, start, start);
  }

  /** Content after the final object is never inspected: appending anything
      to a response whose scan ends on a final object changes nothing. */
  lemma {:induction false} FinalIgnoresRest(p: string, q: string, idx: nat, transcript: string, decode: Decoder)
    requires EndsOnFinal(p, idx, decode)
    ensures ScanFrom(p + q, idx, transcript, decode) == ScanFrom(p, idx, transcript, decode)
    decreases |p| - idx
  {
    var u := Updates(p, idx, decode);
    assert NextObject(p, idx).Some?;
    var o := NextObject(p, idx).value;
    NextObjectPrefix(p, q, idx);
    assert ObjectText(p + q, o) == ObjectText(p, o);
    var obj := decode(ObjectText(p, o));
    if !IsFinalText(obj) {
      assert u[1..] == Updates(p, o.end + 1, decode);
      FinalIgnoresRest(p, q, o.end + 1, if HasText(obj) then obj.value.text else transcript, decode);
    }
  }

  /** The scan loop of transcribe, as written: find each '{' with indexOf,
      walk to its match counting depth outside quotes, decode the slice, keep
      non-empty text, and stop on a final object or an unbalanced tail. */
  method ExtractTranscript(respStr: string, decode: Decoder) returns (transcript: string)
    ensures transcript == ScanFrom(respStr, 0, "", decode)
    ensures transcript == Select("", Updates(respStr, 0, decode))
  {
    transcript := "";
    var idx := 0;
    while idx < |respStr|
      invariant idx <= |respStr|
      invariant ScanFrom(respStr, idx, transcript, decode) == ScanFrom(respStr, 0, "", decode)
      decreases |respStr| - idx
    {
      var found := NextOpen(respStr, idx);
      if found.None? {
        break;
      }
      var start := found.value;
      var braceCount := 0;
      var end := start;
      var inString := false;
      while end < |respStr|
        invariant start <= end <= |respStr|
        invariant Nesting(braceCount, inString) == NestingAfter(respStr, start, end)
        invariant end > start ==> braceCount != 0
        invariant CloseFrom(respStr, start, end) == MatchClose(respStr, start)
        decreases |respStr| - end
      {
        ghost var before := Nesting(braceCount, inString);
        var c := respStr[end];
        if c == '"' {
          inString := !inString;
        }
        if !inString {
          if c == '{' {
            braceCount := braceCount + 1;
          } else if c == '}' {
            braceCount := braceCount - 1;
          }
        }
        assert Nesting(braceCount, inString) == Step(before, c);
        if braceCount == 0 && end > start {
          break;
        }
        end := end + 1;
      }
      if braceCount == 0 {
        assert end < |respStr| && ClosesAt(respStr, start, end);
        assert MatchClose(respStr, start) == Some(end);
        assert NextObject(respStr, idx) == Some(Span(start, end));
        var objStr := respStr[start..end + 1];
        assert objStr == ObjectText(respStr, Span(start, end));
        var obj := decode(objStr);
        ghost var prev := transcript;
        if obj.Some? {
          var text := obj.value.text;
          if text != [] {
            transcript := text;
            if obj.value.isFinal {
              break;
            }
          }
        }
        assert ScanFrom(respStr, idx, prev, decode) == ScanFrom(respStr, end + 1, transcript, decode);
        idx := end + 1;
      } else {
        assert end == |respStr| && MatchClose(respStr, start).None?;
        assert NextObject(respStr, idx).None?;
        break;
      }
    }
    ScanSelects(respStr, 0, "", decode);
  }
}
