/** internal/adapter/import.go: one import line in a native entry, outside code fences. */
module Imports {
  import opened Wrappers
  import opened Records
  import opened Text
  import opened Blocks

  /** The first line with its line break, as bytes.SplitAfter cuts it. */
  function RawLine(s: Bytes): (raw: Bytes)
    requires s != []
    ensures 0 < |raw| <= |s| && raw == s[..|raw|]
    ensures forall i :: 0 <= i < |raw| - 1 ==> raw[i] != '\n'
    ensures |raw| < |s| ==> raw[|raw| - 1] == '\n'
  {
    var n := IndexByte(s, '\n');
    if n == |s| then
      assert s[..|s|] == s;
      s
    else s[..n + 1]
  }

  function TrimSuffix(s: Bytes, c: char): Bytes {
    if s != [] && s[|s| - 1] == c then s[..|s| - 1] else s
  }

  /** The text of a line: its line feed goes, and then one carriage return. */
  function LineText(raw: Bytes): Bytes {
    TrimSuffix(TrimSuffix(raw, '\n'), '\r')
  }

  predicate IsFence(raw: Bytes) {
    "```" <= Trim(LineText(raw))
  }

  predicate IsImport(raw: Bytes, target: string) {
    LineText(raw) == "@" + target
  }

  /** How many fence lines there are. */
  function Fences(s: Bytes): nat
    decreases |s|
  {
    if s == [] then 0
    else
      var raw := RawLine(s);
      (if IsFence(raw) then 1 else 0) + Fences(s[|raw|..])
  }

  /** Where the import lines outside fences start; s begins at offset, inside a fence or not. */
  function ImportsFrom(s: Bytes, target: string, fenced: bool, offset: nat): seq<nat>
    decreases |s|
  {
    if s == [] then []
    else
      var raw := RawLine(s);
      var rest, next := s[|raw|..], offset + |raw|;
      if IsFence(raw) then ImportsFrom(rest, target, !fenced, next)
      else (if !fenced && IsImport(raw, target) then [offset] else []) + ImportsFrom(rest, target, fenced, next)
  }

  function ImportsOf(content: Bytes, target: string): seq<nat> {
    ImportsFrom(content, target, false, 0)
  }

  function Flipped(fenced: bool, fences: nat): bool {
    if fences % 2 == 0 then fenced else !fenced
  }

  // ----- What the offsets mean -----

  predicate LineStart(s: Bytes, i: nat) {
    i < |s| && (i == 0 || s[i - 1] == '\n')
  }

  /** Position i starts a line that reads @target, behind an even number of fence lines. */
  predicate UnfencedImportAt(s: Bytes, target: string, fenced: bool, i: nat) {
    LineStart(s, i) && IsImport(RawLine(s[i..]), target) && !IsFence(RawLine(s[i..])) && !Flipped(fenced, Fences(s[..i]))
  }

  lemma FencesOfPrefix(s: Bytes, i: nat)
    requires s != [] && |RawLine(s)| <= i <= |s| && (i == |RawLine(s)| ==> i == |s| || s[i - 1] == '\n')
    ensures Fences(s[..i]) == (if IsFence(RawLine(s)) then 1 else 0) + Fences(s[|RawLine(s)|..][..i - |RawLine(s)|])
  {
    hide IsFence, RawLine;
    var raw, p := RawLine(s), s[..i];
    SameRawLine(p, raw);
    assert p[|raw|..] == s[|raw|..][..i - |raw|];
  }

  /** The first line is settled by its own break, or by the end. */
  lemma SameRawLine(s: Bytes, raw: Bytes)
    requires raw != [] && raw <= s && (forall i :: 0 <= i < |raw| - 1 ==> raw[i] != '\n')
    requires |raw| < |s| ==> raw[|raw| - 1] == '\n'
    ensures RawLine(s) == raw
  {
    var other := RawLine(s);
    assert forall i :: 0 <= i < |raw| ==> s[i] == raw[i];
    assert forall i :: 0 <= i < |other| ==> s[i] == other[i];
    assert |raw| < |s| ==> s[|raw| - 1] == '\n';
    assert |other| < |s| ==> s[|other| - 1] == '\n';
  }

  lemma ImportsUnfold(s: Bytes, target: string, fenced: bool, offset: nat)
    requires s != []
    ensures var raw := RawLine(s);
      var rest := s[|raw|..];
      ImportsFrom(s, target, fenced, offset)
      == if IsFence(raw) then ImportsFrom(rest, target, !fenced, offset + |raw|)
         else if !fenced && IsImport(raw, target) then [offset] + ImportsFrom(rest, target, fenced, offset + |raw|)
         else ImportsFrom(rest, target, fenced, offset + |raw|)
  {
    hide IsFence, IsImport, RawLine;
    var raw := RawLine(s);
    assert [] + ImportsFrom(s[|raw|..], target, fenced, offset + |raw|) == ImportsFrom(s[|raw|..], target, fenced, offset + |raw|);
  }

  /** An offset is found exactly where an unfenced line that reads @target starts. */
  lemma {:induction false} OffsetIsUnfencedImport(s: Bytes, target: string, fenced: bool, offset: nat, i: nat)
    ensures UnfencedImportAt(s, target, fenced, i) <==> offset + i in ImportsFrom(s, target, fenced, offset)
    decreases |s|
  {
    hide IsFence, IsImport, RawLine, Fences, ImportsFrom, UnfencedImportAt;
    OffsetsRise(s, target, fenced, offset);
    if s == [] {
      NothingStarts(target, fenced, i);
      NoMoreImports(s, target, fenced, offset);
    } else {
      RawLineFacts(s);
      ImportsUnfold(s, target, fenced, offset);
      var raw := RawLine(s);
      var rest, next := s[|raw|..], offset + |raw|;
      var inside := if IsFence(raw) then !fenced else fenced;
      OffsetsRise(rest, target, inside, next);
      if i >= |raw| {
        OffsetIsUnfencedImport(rest, target, inside, next, i - |raw|);
        LaterLine(s, target, fenced, i);
        assert next + (i - |raw|) == offset + i;
      } else {
        FirstLine(s, target, fenced, i);
      }
    }
  }

  lemma NothingStarts(target: string, fenced: bool, i: nat)
    ensures !UnfencedImportAt([], target, fenced, i)
  {
  }

  lemma RawLineFacts(s: Bytes)
    requires s != []
    ensures 0 < |RawLine(s)| <= |s|
  {
  }

  lemma FirstLine(s: Bytes, target: string, fenced: bool, i: nat)
    requires s != [] && i < |RawLine(s)|
    ensures UnfencedImportAt(s, target, fenced, i) <==> i == 0 && !fenced && !IsFence(RawLine(s)) && IsImport(RawLine(s), target)
  {
    hide IsFence, IsImport;
    assert s[0..] == s && s[..0] == [];
    assert i > 0 ==> s[i - 1] == RawLine(s)[i - 1];
  }

  lemma LaterStart(s: Bytes, i: nat)
    requires s != [] && |RawLine(s)| <= i < |s|
    ensures LineStart(s, i) <==> LineStart(s[|RawLine(s)|..], i - |RawLine(s)|)
    ensures i == |RawLine(s)| ==> s[i - 1] == '\n'
  {
    var raw := RawLine(s);
    assert s[|raw| - 1] == raw[|raw| - 1];
    assert i > |raw| ==> s[|raw|..][i - |raw| - 1] == s[i - 1];
  }

  lemma LaterLine(s: Bytes, target: string, fenced: bool, i: nat)
    requires s != [] && i >= |RawLine(s)|
    ensures var raw := RawLine(s);
      var inside := if IsFence(raw) then !fenced else fenced;
      UnfencedImportAt(s, target, fenced, i) <==> UnfencedImportAt(s[|raw|..], target, inside, i - |raw|)
  {
    hide IsFence, IsImport, RawLine, Fences, LineStart, Flipped;
    var raw := RawLine(s);
    var rest := s[|raw|..];
    if i < |s| {
      LaterStart(s, i);
      assert s[i..] == rest[i - |raw|..];
      FencesOfPrefix(s, i);
      FlipAdds(fenced, Fences(rest[..i - |raw|]));
    } else {
      NoStartBeyond(s, i);
      NoStartBeyond(rest, i - |raw|);
    }
  }

  lemma NoStartBeyond(s: Bytes, i: nat)
    requires i >= |s|
    ensures !LineStart(s, i)
  {
  }

  lemma {:induction false} OffsetsRise(s: Bytes, target: string, fenced: bool, offset: nat)
    ensures var found := ImportsFrom(s, target, fenced, offset);
      && (forall k :: k in found ==> offset <= k < offset + |s|)
      && (forall j, k :: 0 <= j < k < |found| ==> found[j] < found[k])
    decreases |s|
  {
    hide IsFence, IsImport, RawLine, ImportsFrom;
    if s == [] {
      NoMoreImports(s, target, fenced, offset);
    } else {
      RawLineFacts(s);
      ImportsUnfold(s, target, fenced, offset);
      var raw := RawLine(s);
      var inside := if IsFence(raw) then !fenced else fenced;
      OffsetsRise(s[|raw|..], target, inside, offset + |raw|);
      var found, rest := ImportsFrom(s, target, fenced, offset), ImportsFrom(s[|raw|..], target, inside, offset + |raw|);
      if found != rest {
        forall j, k | 0 <= j < k < |found|
          ensures found[j] < found[k]
        {
          assert found[k] == rest[k - 1] && rest[k - 1] in rest;
          assert j > 0 ==> found[j] == rest[j - 1];
        }
      }
    }
  }

  // ----- The loops -----

  /** One turn of the loop moves the first line's offset, if it counts, over to what has been found. */
  lemma NextLine(content: Bytes, target: string, fenced: bool, offset: nat, found: seq<nat>)
    requires offset < |content|
    ensures var raw := RawLine(content[offset..]);
      && offset + |raw| <= |content|
      && var rest := content[offset + |raw|..];
         found + ImportsFrom(content[offset..], target, fenced, offset)
         == if IsFence(raw) then found + ImportsFrom(rest, target, !fenced, offset + |raw|)
            else if !fenced && IsImport(raw, target) then found + [offset] + ImportsFrom(rest, target, fenced, offset + |raw|)
            else found + ImportsFrom(rest, target, fenced, offset + |raw|)
  {
    hide IsFence, IsImport, ImportsFrom, RawLine;
    RawLineFacts(content[offset..]);
    var raw := RawLine(content[offset..]);
    assert content[offset..][|raw|..] == content[offset + |raw|..];
    ImportsUnfold(content[offset..], target, fenced, offset);
    var rest := ImportsFrom(content[offset + |raw|..], target, fenced, offset + |raw|);
    assert found + ([offset] + rest) == found + [offset] + rest;
  }

  /** importLines: one pass over the lines with a running offset, fence flag, count and first position. */
  method ImportLines(content: Bytes, target: string) returns (count: nat, first: int)
    ensures count == |ImportsOf(content, target)|
    ensures first == if count == 0 then -1 else ImportsOf(content, target)[0]
  {
    hide IsFence, IsImport, RawLine, ImportsFrom;
    var offset, fenced := 0, false;
    count, first := 0, -1;
    ghost var found: seq<nat> := [];
    assert content[0..] == content;
    assert found + ImportsOf(content, target) == ImportsOf(content, target);
    while offset < |content|
      invariant offset <= |content|
      invariant ImportsOf(content, target) == found + ImportsFrom(content[offset..], target, fenced, offset)
      invariant count == |found| && first == if count == 0 then -1 else found[0]
      decreases |content| - offset
    {
      RawLineFacts(content[offset..]);
      NextLine(content, target, fenced, offset, found);
      var raw := RawLine(content[offset..]);
      if IsFence(raw) {
        fenced := !fenced;
      } else if !fenced && IsImport(raw, target) {
        found := found + [offset];
        count := count + 1;
        if first < 0 {
          first := offset;
        }
      }
      offset := offset + |raw|;
    }
    NoMoreImports(content[offset..], target, fenced, offset);
  }

  lemma NoMoreImports(s: Bytes, target: string, fenced: bool, offset: nat)
    ensures s == [] ==> ImportsFrom(s, target, fenced, offset) == []
  {
  }

  datatype ImportFault = InvalidTarget | DuplicateImport

  predicate ValidTarget(target: string) {
    target != "" && '\r' !in target && '\n' !in target
  }

  /** What UpsertImport returns: the bytes, and whether a line was inserted. */
  function Upserted(content: Bytes, target: string): Result<(Bytes, bool), ImportFault> {
    if !ValidTarget(target) then Err(InvalidTarget)
    else if |ImportsOf(content, target)| > 1 then Err(DuplicateImport)
    else if |ImportsOf(content, target)| == 1 then Ok((content, false))
    else Ok((Delimited(content) + "@" + target, true))
  }

  method UpsertImport(content: Bytes, target: string) returns (r: Result<(Bytes, bool), ImportFault>)
    ensures r == Upserted(content, target)
  {
    hide ImportsOf, NewLine;
    if !ValidTarget(target) {
      return Err(InvalidTarget);
    }
    var count, first := ImportLines(content, target);
    if count > 1 {
      return Err(DuplicateImport);
    }
    if first >= 0 {
      return Ok((content, false));
    }
    var nl := NewLine(content);
    var out := content;
    if |out| > 0 {
      out := out + nl;
    }
    return Ok((out + "@" + target, true));
  }

  /** Where the line that starts at start ends, break included. */
  function LineEnd(content: Bytes, start: nat): nat
    requires start < |content|
  {
    start + |RawLine(content[start..])|
  }

  /** Where the removal starts: before the line break in front of the line. */
  function CutStart(content: Bytes, start: nat): nat
    requires start <= |content|
  {
    if start == 0 || content[start - 1] != '\n' then start
    else if start > 1 && content[start - 2] == '\r' then start - 2
    else start - 1
  }

  /** What RemoveImport returns. */
  function Removed(content: Bytes, target: string): Result<(Bytes, bool), ImportFault> {
    var found := ImportsOf(content, target);
    if |found| > 1 then Err(DuplicateImport)
    else if |found| == 0 || found[0] >= |content| then Ok((content, false))
    else Ok((content[..CutStart(content, found[0])] + content[LineEnd(content, found[0])..], true))
  }

  lemma ImportStartsInside(content: Bytes, target: string)
    ensures forall k :: k in ImportsOf(content, target) ==> k < |content| && IsImport(RawLine(content[k..]), target)
  {
    hide IsImport, IsFence, ImportsFrom;
    forall k | k in ImportsOf(content, target)
      ensures k < |content| && IsImport(RawLine(content[k..]), target)
    {
      OffsetIsUnfencedImport(content, target, false, 0, k);
    }
  }

  method RemoveImport(content: Bytes, target: string) returns (r: Result<(Bytes, bool), ImportFault>)
    ensures r == Removed(content, target)
  {
    hide ImportsOf, IsImport;
    var count, first := ImportLines(content, target);
    ImportStartsInside(content, target);
    if count > 1 {
      return Err(DuplicateImport);
    }
    if first < 0 {
      return Ok((content, false));
    }
    assert first in ImportsOf(content, target);
    var start, end: int := first, first;
    ghost var raw := RawLine(content[start..]);
    while end < |content| && content[end] != '\n'
      invariant first <= end <= first + |raw|
      invariant forall i :: 0 <= i < end - first ==> raw[i] != '\n'
      decreases |content| - end
    {
      assert content[end] == content[start..][end - first];
      end := end + 1;
    }
    if end < |content| {
      assert content[end] == content[start..][end - first];
      end := end + 1;
    }
    assert end == LineEnd(content, first);
    if start > 0 {
      if content[start - 1] == '\n' {
        start := start - 1;
        if start > 0 && content[start - 1] == '\r' {
          start := start - 1;
        }
      }
    }
    return Ok((content[..start] + content[end..], true));
  }

  // ----- Inserting and removing -----

  /** Every fence that was opened is closed. */
  predicate Balanced(content: Bytes) {
    Fences(content) % 2 == 0
  }

  lemma TrimIgnoresBreak(s: Bytes, c: char)
    requires IsSpace(c)
    ensures Trim(s + [c]) == Trim(s)
  {
    TrimsCommute(s + [c]);
    TrimsCommute(s);
    assert (s + [c])[..|s|] == s;
  }

  lemma TrimIgnoresSuffix(s: Bytes, c: char)
    requires IsSpace(c)
    ensures Trim(TrimSuffix(s, c)) == Trim(s)
  {
    if s != [] && s[|s| - 1] == c {
      TrimIgnoresBreak(s[..|s| - 1], c);
      assert s == s[..|s| - 1] + [c];
    }
  }

  /** Whatever break a line ends in, it is a fence or it is not. */
  lemma FenceIgnoresBreak(raw: Bytes, nl: Bytes)
    requires nl == LF || nl == CRLF
    ensures IsFence(raw) <==> "```" <= Trim(raw)
    ensures IsFence(raw + nl) <==> IsFence(raw)
  {
    LineTextTrims(raw);
    LineTextTrims(raw + nl);
    TrimIgnoresBreak(raw, '\n');
    TrimIgnoresBreak(raw, '\r');
    TrimIgnoresBreak(raw + ['\r'], '\n');
    assert raw + CRLF == raw + ['\r'] + ['\n'];
    hide LineText, Trim;
  }

  lemma LineTextTrims(raw: Bytes)
    ensures Trim(LineText(raw)) == Trim(raw)
  {
    TrimIgnoresSuffix(raw, '\n');
    TrimIgnoresSuffix(TrimSuffix(raw, '\n'), '\r');
  }

  /** A line that gets a break and reads @target read so before, or had no break at all. */
  lemma ImportIgnoresBreak(raw: Bytes, nl: Bytes, target: string)
    requires (nl == LF || nl == CRLF) && IsImport(raw + nl, target) && ValidTarget(target)
    requires forall i :: 0 <= i < |raw| ==> raw[i] != '\n'
    ensures IsImport(raw, target)
  {
    var text := "@" + target;
    assert '\r' !in text && '\n' !in text;
    if nl == LF {
      assert TrimSuffix(raw + nl, '\n') == raw;
      assert TrimSuffix(raw, '\n') == raw;
    } else {
      assert TrimSuffix(raw + nl, '\n') == raw + ['\r'];
      assert TrimSuffix(raw + ['\r'], '\r') == raw;
      assert raw == text && raw[|raw| - 1] in text;
    }
  }

  lemma RawLineOfLonger(s: Bytes, x: Bytes)
    requires s != [] && '\n' in s
    ensures RawLine(s + x) == RawLine(s)
  {
    var raw := RawLine(s);
    assert raw[|raw| - 1] == '\n' by {
      if |raw| == |s| {
        var i :| 0 <= i < |s| && s[i] == '\n';
        assert raw[i] == '\n';
      }
    }
    assert raw <= s + x;
    SameRawLine(s + x, raw);
  }

  /** Behind a finished line, what follows is read on its own. */
  lemma {:induction false} ImportsSplit(s: Bytes, x: Bytes, target: string, fenced: bool, offset: nat)
    requires s == [] || s[|s| - 1] == '\n'
    ensures ImportsFrom(s + x, target, fenced, offset)
         == ImportsFrom(s, target, fenced, offset) + ImportsFrom(x, target, Flipped(fenced, Fences(s)), offset + |s|)
    decreases |s|
  {
    hide IsFence, IsImport, RawLine, ImportsFrom, Fences, Flipped;
    NoMoreImports(s, target, fenced, offset);
    if s == [] {
      assert s + x == x;
      NoFences();
      FlipAdds(fenced, 0);
    } else {
      LineOff(s, x);
      var raw := RawLine(s);
      var rest, inside := s[|raw|..], if IsFence(raw) then !fenced else fenced;
      ImportsSplit(rest, x, target, inside, offset + |raw|);
      SplitStep(s, x, target, fenced, offset);
    }
  }

  lemma LineOff(s: Bytes, x: Bytes)
    requires s != [] && s[|s| - 1] == '\n'
    ensures var raw := RawLine(s);
      var rest := s[|raw|..];
      && 0 < |raw| <= |s| && RawLine(s + x) == raw && (s + x)[|raw|..] == rest + x
      && (rest == [] || rest[|rest| - 1] == '\n')
  {
    RawLineOfLonger(s, x);
    hide RawLine;
    RawLineFacts(s);
  }

  lemma SplitStep(s: Bytes, x: Bytes, target: string, fenced: bool, offset: nat)
    requires s != [] && s[|s| - 1] == '\n'
    requires var raw := RawLine(s);
      var rest, inside := s[|raw|..], if IsFence(raw) then !fenced else fenced;
      ImportsFrom(rest + x, target, inside, offset + |raw|)
      == ImportsFrom(rest, target, inside, offset + |raw|) + ImportsFrom(x, target, Flipped(inside, Fences(rest)), offset + |s|)
    ensures ImportsFrom(s + x, target, fenced, offset)
         == ImportsFrom(s, target, fenced, offset) + ImportsFrom(x, target, Flipped(fenced, Fences(s)), offset + |s|)
  {
    hide IsFence, IsImport, RawLine, ImportsFrom, Fences, Flipped, WithHead;
    LineOff(s, x);
    ImportsHead(s + x, target, fenced, offset);
    ImportsHead(s, target, fenced, offset);
    FlipsPast(s, fenced);
    var raw := RawLine(s);
    var rest, inside := s[|raw|..], if IsFence(raw) then !fenced else fenced;
    var later, more := ImportsFrom(rest, target, inside, offset + |raw|), ImportsFrom(x, target, Flipped(fenced, Fences(s)), offset + |s|);
    HeadThenSplit(!IsFence(raw) && !fenced && IsImport(raw, target), offset, later, more);
  }

  /** The imports of s: its first line's, if it is one, and then the rest's. */
  lemma ImportsHead(s: Bytes, target: string, fenced: bool, offset: nat)
    requires s != []
    ensures var raw := RawLine(s);
      var later := ImportsFrom(s[|raw|..], target, if IsFence(raw) then !fenced else fenced, offset + |raw|);
      ImportsFrom(s, target, fenced, offset) == WithHead(!IsFence(raw) && !fenced && IsImport(raw, target), offset, later)
  {
    hide IsFence, IsImport, RawLine, ImportsFrom;
    ImportsUnfold(s, target, fenced, offset);
  }

  function WithHead(hit: bool, k: nat, later: seq<nat>): seq<nat> {
    if hit then [k] + later else later
  }

  lemma HeadThenSplit(hit: bool, k: nat, later: seq<nat>, more: seq<nat>)
    ensures WithHead(hit, k, later + more) == WithHead(hit, k, later) + more
  {
    Regroup(k, later, more);
  }

  /** The state behind s is the one behind its first line, past the rest. */
  lemma FlipsPast(s: Bytes, fenced: bool)
    requires s != []
    ensures var raw := RawLine(s);
      Flipped(fenced, Fences(s)) == Flipped(if IsFence(raw) then !fenced else fenced, Fences(s[|raw|..]))
  {
    hide IsFence, RawLine, Fences;
    FencesUnfold(s);
  }

  lemma Regroup(k: nat, a: seq<nat>, b: seq<nat>)
    ensures [k] + (a + b) == ([k] + a) + b
  {
  }

  lemma FlipAdds(fenced: bool, fences: nat)
    ensures Flipped(fenced, 0) == fenced && Flipped(fenced, fences + 1) == Flipped(!fenced, fences)
  {
  }

  lemma FencesUnfold(s: Bytes)
    requires s != []
    ensures Fences(s) == (if IsFence(RawLine(s)) then 1 else 0) + Fences(s[|RawLine(s)|..])
  {
    hide IsFence, RawLine;
  }

  /** Finishing the last line adds no import and no fence. */
  lemma {:induction false} FinishedLine(s: Bytes, nl: Bytes, target: string, fenced: bool, offset: nat)
    requires s != [] && (nl == LF || nl == CRLF) && ValidTarget(target) && ImportsFrom(s, target, fenced, offset) == []
    ensures ImportsFrom(s + nl, target, fenced, offset) == [] && Fences(s + nl) == Fences(s)
    decreases |s|
  {
    hide IsFence, IsImport, RawLine, ImportsFrom, Fences;
    RawLineFacts(s);
    ImportsUnfold(s, target, fenced, offset);
    FencesUnfold(s);
    var raw := RawLine(s);
    var rest, inside := s[|raw|..], if IsFence(raw) then !fenced else fenced;
    ImportsUnfold(s + nl, target, fenced, offset);
    FencesUnfold(s + nl);
    if '\n' in s {
      RawLineOfLonger(s, nl);
      assert (s + nl)[|raw|..] == rest + nl;
      if rest == [] {
        assert rest + nl == nl;
        EmptyLine(nl, target, inside, offset + |raw|);
        NoFences();
      } else {
        FinishedLine(rest, nl, target, inside, offset + |raw|);
      }
    } else {
      LastLine(s, nl);
      assert (s + nl)[|s + nl|..] == [] && s[|s|..] == [];
      FenceIgnoresBreak(s, nl);
      NoMoreImports([], target, inside, offset + |s + nl|);
      if IsImport(s + nl, target) {
        ImportIgnoresBreak(s, nl, target);
      }
    }
  }

  lemma NoFences()
    ensures Fences([]) == 0
  {
  }

  lemma LastLine(s: Bytes, nl: Bytes)
    requires s != [] && '\n' !in s && (nl == LF || nl == CRLF)
    ensures RawLine(s) == s && RawLine(s + nl) == s + nl
  {
    SameRawLine(s, s);
    SameRawLine(s + nl, s + nl);
  }

  lemma EmptyLine(nl: Bytes, target: string, fenced: bool, offset: nat)
    requires (nl == LF || nl == CRLF) && ValidTarget(target)
    ensures ImportsFrom(nl, target, fenced, offset) == [] && Fences(nl) == 0
  {
    hide Trim, LineText, RawLine;
    SameRawLine(nl, nl);
    assert nl[|nl|..] == [];
    EmptyLineText(nl);
  }

  lemma EmptyLineText(nl: Bytes)
    requires nl == LF || nl == CRLF
    ensures LineText(nl) == [] && Trim([]) == []
  {
    assert CRLF[..1] == ['\r'];
  }

  /** The content with the inserted line: one more import, the inserted one, exactly when the fences are balanced. */
  lemma ImportsAfterInsert(content: Bytes, target: string)
    requires ValidTarget(target) && ImportsOf(content, target) == []
    ensures ImportsOf(Delimited(content) + "@" + target, target) == if Balanced(content) then [|Delimited(content)|] else []
  {
    hide IsFence, IsImport, RawLine, ImportsFrom, Fences, NewLine, Trim;
    var line, d := "@" + target, Delimited(content);
    assert d + "@" + target == d + line;
    if content == [] {
      NoFences();
      NoMoreImports([], target, false, 0);
    } else {
      LineBreaks(content);
      FinishedLine(content, NewLine(content), target, false, 0);
      assert d[|d| - 1] == '\n';
    }
    ImportsSplit(d, line, target, false, 0);
    SingleImport(target, Flipped(false, Fences(d)), |d|);
  }

  lemma SingleImport(target: string, fenced: bool, offset: nat)
    requires ValidTarget(target)
    ensures ImportsFrom("@" + target, target, fenced, offset) == if fenced then [] else [offset]
  {
    var line := "@" + target;
    SameRawLine(line, line);
    assert line[|line|..] == [];
    assert line[|line| - 1] in line;
    assert '\n' !in line && '\r' !in line;
    assert LineText(line) == line;
    LineTextTrims(line);
    TrimLeftOfText(line);
    hide Trim;
  }

  lemma TrimLeftOfText(line: Bytes)
    requires line != [] && line[0] == '@'
    ensures Trim(line) != [] && Trim(line)[0] == '@'
  {
    assert line == ['@'] + line[1..];
    TrimRightOfFront('@', line[1..]);
  }

  /** Upserting again changes nothing exactly when every fence is closed; otherwise it inserts a second line. */
  lemma UpsertIsIdempotentIffBalanced(content: Bytes, target: string)
    requires Upserted(content, target).Ok? && Upserted(content, target).value.1
    ensures var inserted := Upserted(content, target).value.0;
      Upserted(inserted, target) == Ok((inserted, false)) <==> Balanced(content)
  {
    hide ImportsOf, Balanced, NewLine;
    ImportsAfterInsert(content, target);
    LineIsNotEmpty(content, target);
  }

  lemma LineIsNotEmpty(content: Bytes, target: string)
    ensures |Delimited(Delimited(content) + "@" + target) + "@" + target| > |Delimited(content) + "@" + target|
  {
    hide NewLine;
  }

  /** An inserted line is taken out again, and the bytes are the original ones, exactly when every fence is closed and
      the content does not end in a bare CR. */
  lemma RemoveUndoesInsert(content: Bytes, target: string)
    requires Upserted(content, target).Ok? && Upserted(content, target).value.1
    ensures Removed(Upserted(content, target).value.0, target) == Ok((content, true)) <==> Balanced(content) && StableNewLine(content)
  {
    hide ImportsOf, Balanced;
    var line, d := "@" + target, Delimited(content);
    var s := d + "@" + target;
    assert s == d + line;
    ImportsAfterInsert(content, target);
    if Balanced(content) {
      assert s[|d|..] == line;
      assert '\n' !in line;
      SameRawLine(line, line);
      assert LineEnd(s, |d|) == |s|;
      CutIsDelimiter(content, s);
      assert s[..CutStart(s, |d|)] + s[|s|..] == s[..CutStart(s, |d|)];
    }
  }

  /** The cut falls behind the content exactly when the content keeps its last byte. */
  lemma CutIsDelimiter(content: Bytes, s: Bytes)
    requires Delimited(content) <= s
    ensures s[..CutStart(s, |Delimited(content)|)] == content <==> StableNewLine(content)
  {
    var d := Delimited(content);
    if content != [] {
      LineBreaks(content);
      assert s[|d| - 1] == d[|d| - 1] == '\n';
      if NewLine(content) == CRLF {
        assert s[|d| - 2] == d[|d| - 2] == '\r';
        assert CutStart(s, |d|) == |content|;
        assert s[..|content|] == content;
      } else {
        assert s[|d| - 2] == d[|d| - 2] == content[|content| - 1];
        assert s[..|content|] == content;
      }
    }
  }
}
