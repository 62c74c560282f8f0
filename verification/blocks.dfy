/** internal/adapter/block.go: the managed block in a native entry, byte for byte. */
module Blocks {
  import opened Wrappers
  import opened Records
  import opened Sorting

  // ----- Substrings -----

  /** bytes.Index from position i on. */
  function IndexFrom(s: Bytes, pat: Bytes, i: nat): (r: Option<nat>)
    requires i <= |s|
    ensures r.Some? ==> i <= r.value <= |s| && pat <= s[r.value..] && forall k :: i <= k < r.value ==> !(pat <= s[k..])
    ensures r.None? ==> forall k :: i <= k <= |s| ==> !(pat <= s[k..])
    decreases |s| - i
  {
    if pat <= s[i..] then Some(i) else if i == |s| then None else IndexFrom(s, pat, i + 1)
  }

  function Index(s: Bytes, pat: Bytes): (r: Option<nat>)
    ensures r.Some? ==> r.value <= |s| && pat <= s[r.value..] && forall k :: 0 <= k < r.value ==> !(pat <= s[k..])
    ensures r.None? ==> forall k :: 0 <= k <= |s| ==> !(pat <= s[k..])
  {
    IndexFrom(s, pat, 0)
  }

  predicate Contains(s: Bytes, pat: Bytes) {
    Index(s, pat).Some?
  }

  /** bytes.Count of a non-empty pattern: occurrences that do not overlap, from the left. */
  function Count(s: Bytes, pat: Bytes): nat
    requires pat != []
  {
    if |s| < |pat| then 0
    else if pat <= s then 1 + Count(s[|pat|..], pat)
    else Count(s[1..], pat)
  }

  /** No occurrence starts inside a. */
  ghost predicate NoStart(a: Bytes, b: Bytes, pat: Bytes) {
    forall i :: 0 <= i < |a| ==> !(pat <= (a + b)[i..])
  }

  lemma {:induction false} CountSkips(a: Bytes, b: Bytes, pat: Bytes)
    requires pat != [] && NoStart(a, b, pat)
    ensures Count(a + b, pat) == Count(b, pat)
  {
    if a == [] {
      assert a + b == b;
    } else {
      var s := a + b;
      assert s[0..] == s;
      assert s[1..] == a[1..] + b;
      forall i | 0 <= i < |a[1..]|
        ensures !(pat <= (a[1..] + b)[i..])
      {
        assert (a[1..] + b)[i..] == s[i + 1..];
      }
      CountSkips(a[1..], b, pat);
      if |s| < |pat| {
        CountIsZero(s[1..], pat);
      }
    }
  }

  lemma CountIsZero(s: Bytes, pat: Bytes)
    requires pat != [] && |s| < |pat|
    ensures Count(s, pat) == 0
  {
  }

  lemma FirstOccurrence(a: Bytes, b: Bytes, pat: Bytes)
    requires NoStart(a, b, pat) && pat <= b
    ensures Index(a + b, pat) == Some(|a|)
  {
    assert (a + b)[|a|..] == b;
  }

  lemma {:induction false} AbsentCountsZero(s: Bytes, pat: Bytes)
    requires pat != [] && !Contains(s, pat)
    ensures Count(s, pat) == 0
  {
    forall i | 0 <= i < |s|
      ensures !(pat <= (s + [])[i..])
    {
      assert (s + [])[i..] == s[i..];
    }
    CountSkips(s, [], pat);
    assert s + [] == s;
  }

  lemma BracketStarts(a: Bytes, b: Bytes, pat: Bytes)
    requires pat != [] && pat[0] !in a
    ensures NoStart(a, b, pat)
  {
    forall i | 0 <= i < |a|
      ensures !(pat <= (a + b)[i..])
    {
      assert (a + b)[i..][0] == a[i] && a[i] in a;
    }
  }

  // ----- The block -----

  const BEGIN: Bytes := "<!-- UAWP:BEGIN"
  const END: Bytes := "<!-- UAWP:END"
  const LF: Bytes := "\n"
  const CRLF: Bytes := "\r\n"

  datatype BlockSpec = BlockSpec(artifactID: string, target: string, consumers: seq<string>, body: string)

  function Joined(parts: seq<string>): string {
    if parts == [] then "" else if |parts| == 1 then parts[0] else parts[0] + "," + Joined(parts[1..])
  }

  function Head(spec: BlockSpec, nl: Bytes): Bytes {
    " artifact=" + spec.artifactID + " schema=1 target=" + spec.target + " consumers=" + Joined(Sort(spec.consumers, LexLess)) + " -->"
    + nl + spec.body + nl
  }

  function Tail(spec: BlockSpec): Bytes {
    " artifact=" + spec.artifactID + " -->"
  }

  /** blockBytes. */
  function Block(spec: BlockSpec, nl: Bytes): Bytes {
    BEGIN + Head(spec, nl) + END + Tail(spec)
  }

  function NewLine(content: Bytes): Bytes {
    if Contains(content, CRLF) then CRLF else LF
  }

  datatype BlockFault = DuplicateMarkers | MismatchedEnd | Nested | Drift | OrphanEnd | MissingOrDrifted

  function StripDelimiter(content: Bytes, start: nat, nl: Bytes): Bytes {
    if |nl| <= start <= |content| then content[..start - |nl|] + content[start..] else content
  }

  /** UpsertManagedBlock: the new bytes and the hash of everything outside the block. */
  function Upsert(content: Bytes, spec: BlockSpec): Result<(Bytes, Digest), BlockFault> {
    var nl := NewLine(content);
    var want := Block(spec, nl);
    if Count(content, BEGIN) > 1 || Count(content, END) > 1 then Err(DuplicateMarkers)
    else if Count(content, BEGIN) == 1 then
      var found := Index(content, BEGIN);
      if found.None? then Err(Drift)
      else
        var start := found.value;
        var endPrefix := END + Tail(spec);
        var close := Index(content[start..], endPrefix);
        if close.None? then Err(MismatchedEnd)
        else
          var end := start + close.value + |endPrefix|;
          if start + |BEGIN| <= end - |endPrefix| && Contains(content[start + |BEGIN|..end - |endPrefix|], BEGIN) then Err(Nested)
          else if content[start..end] != want then Err(Drift)
          else Ok((content, HashBytes(StripDelimiter(content[..start] + content[end..], start, nl))))
    else if Contains(content, END) then Err(OrphanEnd)
    else Ok((if content == [] then want else content + nl + want, HashBytes(content)))
  }

  /** RemoveManagedBlock. */
  function Remove(content: Bytes, spec: BlockSpec): Result<Bytes, BlockFault> {
    var nl := NewLine(content);
    var want := Block(spec, nl);
    var found := Index(content, want);
    if found.None? || Count(content, BEGIN) != 1 || Count(content, END) != 1 then Err(MissingOrDrifted)
    else
      var start := found.value;
      Ok(StripDelimiter(content[..start] + content[start + |want|..], start, nl))
  }

  // ----- Well-behaved inputs -----

  predicate PlainText(s: string) {
    '<' !in s && '\r' !in s && '\n' !in s
  }

  /** Names and body hold no marker and no line break. */
  predicate PlainSpec(spec: BlockSpec) {
    && PlainText(spec.artifactID) && PlainText(spec.target) && PlainText(spec.body)
    && forall c :: c in spec.consumers ==> PlainText(c)
  }

  predicate MarkerFree(o: Bytes) {
    !Contains(o, BEGIN) && !Contains(o, END)
  }

  /** The content does not end in a bare CR, unless it uses CRLF anyway. */
  predicate StableNewLine(o: Bytes) {
    o == [] || o[|o| - 1] != '\r' || Contains(o, CRLF)
  }

  /** The managed form of content o. */
  function Managed(o: Bytes, spec: BlockSpec): Bytes {
    Delimited(o) + Block(spec, NewLine(o))
  }

  function Delimited(o: Bytes): Bytes {
    if o == [] then [] else o + NewLine(o)
  }

  // ----- What the bytes of a managed file contain -----

  lemma {:induction false} JoinedIsPlain(parts: seq<string>)
    requires forall p :: p in parts ==> PlainText(p)
    ensures PlainText(Joined(parts))
  {
    if parts != [] {
      assert parts[0] in parts;
      JoinedIsPlain(parts[1..]);
    }
  }

  lemma SortedIsPlain(parts: seq<string>)
    requires forall p :: p in parts ==> PlainText(p)
    ensures PlainText(Joined(Sort(parts, LexLess)))
  {
    var sorted := Sort(parts, LexLess);
    forall p | p in sorted
      ensures PlainText(p)
    {
      assert p in multiset(sorted);
      assert p in multiset(parts);
    }
    JoinedIsPlain(sorted);
  }

  lemma PartsArePlain(spec: BlockSpec, nl: Bytes)
    requires PlainSpec(spec) && (nl == LF || nl == CRLF)
    ensures '<' !in Head(spec, nl) && '<' !in Tail(spec)
    ensures nl == LF ==> '\r' !in Head(spec, nl) && '\r' !in Tail(spec)
  {
    hide Joined, Sort, PlainText;
    SortedIsPlain(spec.consumers);
    HeadIsPlain(spec.artifactID, spec.target, Joined(Sort(spec.consumers, LexLess)), spec.body, nl);
    TailIsPlain(spec.artifactID);
  }

  lemma HeadIsPlain(artifactID: string, target: string, consumers: string, body: string, nl: Bytes)
    requires PlainText(artifactID) && PlainText(target) && PlainText(consumers) && PlainText(body) && (nl == LF || nl == CRLF)
    ensures var head := " artifact=" + artifactID + " schema=1 target=" + target + " consumers=" + consumers + " -->" + nl + body + nl;
      '<' !in head && (nl == LF ==> '\r' !in head)
  {
    var front := " artifact=" + artifactID + " schema=1 target=" + target;
    assert '<' !in front && '\r' !in front;
    var middle := front + " consumers=" + consumers + " -->";
    assert '<' !in middle && '\r' !in middle;
  }

  lemma TailIsPlain(artifactID: string)
    requires PlainText(artifactID)
    ensures '<' !in " artifact=" + artifactID + " -->" && '\r' !in " artifact=" + artifactID + " -->"
  {
  }

  /** What the proofs use of the two markers: one bracket, in front, and they differ early. */
  predicate Marker(m: Bytes) {
    |m| > 10 && m[0] == '<' && '<' !in m[1..] && '\r' !in m && '\n' !in m
  }

  predicate MarkerPair(begin: Bytes, end: Bytes) {
    Marker(begin) && Marker(end) && begin[10] != end[10]
  }

  lemma MarkersDiffer()
    ensures MarkerPair(BEGIN, END)
  {
  }

  /** Nothing that starts like another marker starts inside this one. */
  lemma MarkerSkips(m: Bytes, rest: Bytes, pat: Bytes)
    requires Marker(m) && |pat| > 10 && pat[0] == '<' && pat[10] != m[10]
    ensures NoStart(m, rest, pat)
  {
    var s := m + rest;
    forall i | 0 <= i < |m|
      ensures !(pat <= s[i..])
    {
      if i > 0 {
        assert s[i..][0] == m[1..][i - 1] && m[1..][i - 1] in m[1..];
      } else {
        assert s[0..] == s && s[10] == m[10];
      }
    }
  }

  lemma NoStartJoins(a: Bytes, b: Bytes, c: Bytes, pat: Bytes)
    requires NoStart(a, b + c, pat) && NoStart(b, c, pat)
    ensures NoStart(a + b, c, pat)
  {
    var s := a + b + c;
    assert s == a + (b + c);
    forall i | 0 <= i < |a + b|
      ensures !(pat <= s[i..])
    {
      if i >= |a| {
        assert s[i..] == (b + c)[i - |a|..];
      }
    }
  }

  lemma TailCountsNone(tail: Bytes, pat: Bytes)
    requires pat != [] && pat[0] !in tail
    ensures Count(tail, pat) == 0
  {
    BracketStarts(tail, [], pat);
    CountSkips(tail, [], pat);
    assert tail + [] == tail;
  }

  lemma MarkerCountsOnce(m: Bytes, rest: Bytes)
    requires m != []
    ensures Count(m + rest, m) == 1 + Count(rest, m)
  {
    assert (m + rest)[|m|..] == rest;
  }

  /** One opening and one closing marker, at the two brackets. */
  lemma BracketedCounts(begin: Bytes, head: Bytes, end: Bytes, tail: Bytes)
    requires MarkerPair(begin, end) && '<' !in head && '<' !in tail
    ensures Count(begin + (head + (end + tail)), begin) == 1
    ensures Count(begin + (head + (end + tail)), end) == 1
  {
    hide Count, NoStart;
    var close := end + tail;
    MarkerCountsOnce(begin, head + close);
    BracketStarts(head, close, begin);
    CountSkips(head, close, begin);
    MarkerSkips(end, tail, begin);
    CountSkips(end, tail, begin);
    TailCountsNone(tail, begin);
    MarkerSkips(begin, head + close, end);
    CountSkips(begin, head + close, end);
    BracketStarts(head, close, end);
    CountSkips(head, close, end);
    MarkerCountsOnce(end, tail);
    TailCountsNone(tail, end);
  }

  lemma CloseIsFound(begin: Bytes, head: Bytes, end: Bytes, tail: Bytes)
    requires MarkerPair(begin, end) && '<' !in head
    ensures Index(begin + head + (end + tail), end + tail) == Some(|begin| + |head|)
  {
    var pat := end + tail;
    MarkerSkips(begin, head + pat, pat);
    BracketStarts(head, pat, pat);
    NoStartJoins(begin, head, pat, pat);
    FirstOccurrence(begin + head, pat, pat);
  }

  lemma BracketFree(head: Bytes, pat: Bytes)
    requires pat != [] && pat[0] !in head
    ensures !Contains(head, pat)
  {
    forall k | 0 <= k <= |head|
      ensures !(pat <= head[k..])
    {
      assert k < |head| ==> head[k..][0] == head[k] && head[k] in head;
    }
  }

  /** The block holds one opening and one closing marker. */
  lemma BlockMarkers(spec: BlockSpec, nl: Bytes)
    requires PlainSpec(spec) && (nl == LF || nl == CRLF)
    ensures Count(Block(spec, nl), BEGIN) == 1 && Count(Block(spec, nl), END) == 1
    ensures Index(Block(spec, nl), END + Tail(spec)) == Some(|BEGIN| + |Head(spec, nl)|)
  {
    hide Head, Tail, Count, Index, NoStart, PlainSpec, MarkerPair;
    MarkersDiffer();
    PartsArePlain(spec, nl);
    var head, tail := Head(spec, nl), Tail(spec);
    BracketedCounts(BEGIN, head, END, tail);
    CloseIsFound(BEGIN, head, END, tail);
    assert Block(spec, nl) == BEGIN + (head + (END + tail)) == BEGIN + head + (END + tail);
  }

  /** No marker starts in marker-free content or in the delimiter behind it. */
  lemma DelimitedSkips(o: Bytes, rest: Bytes, m: Bytes)
    requires !Contains(o, m) && Marker(m)
    ensures NoStart(Delimited(o), rest, m)
  {
    var a := Delimited(o);
    var s := a + rest;
    forall i | 0 <= i < |a|
      ensures !(m <= s[i..])
    {
      if i + |m| <= |o| {
        assert s[i..][..|m|] == o[i..][..|m|];
        assert !(m <= o[i..]);
      } else if i < |o| {
        assert s[i..][|o| - i] == s[|o|] == NewLine(o)[0];
        assert m[|o| - i] in m;
      } else {
        assert s[i..][0] == NewLine(o)[i - |o|];
      }
    }
  }

  // ----- Upsert and remove -----

  /** The first marker of a managed file is the block's, right behind the delimiter, and there is one of each. */
  lemma ManagedMarkers(o: Bytes, spec: BlockSpec)
    requires MarkerFree(o) && PlainSpec(spec)
    ensures Count(Managed(o, spec), BEGIN) == 1 && Count(Managed(o, spec), END) == 1
    ensures Index(Managed(o, spec), BEGIN) == Some(|Delimited(o)|)
    ensures Index(Managed(o, spec), Block(spec, NewLine(o))) == Some(|Delimited(o)|)
  {
    var block := Block(spec, NewLine(o));
    BlockMarkers(spec, NewLine(o));
    MarkersDiffer();
    DelimitedSkips(o, block, BEGIN);
    DelimitedSkips(o, block, END);
    hide Count, Index, MarkerPair, Head, Tail, NewLine, PlainSpec;
    CountSkips(Delimited(o), block, BEGIN);
    CountSkips(Delimited(o), block, END);
    BlockStarts(spec, NewLine(o));
    FirstOccurrence(Delimited(o), block, BEGIN);
    LongerSkips(Delimited(o), block, BEGIN, block);
    FirstOccurrence(Delimited(o), block, block);
  }

  lemma BlockStarts(spec: BlockSpec, nl: Bytes)
    ensures BEGIN <= Block(spec, nl)
  {
    hide Head, Tail;
  }

  lemma LongerSkips(a: Bytes, b: Bytes, pat: Bytes, longer: Bytes)
    requires NoStart(a, b, pat) && pat <= longer
    ensures NoStart(a, b, longer)
  {
    forall i | 0 <= i < |a|
      ensures !(longer <= (a + b)[i..])
    {
      assert !(pat <= (a + b)[i..]);
    }
  }

  lemma {:induction false} ContainsAt(s: Bytes, pat: Bytes, i: nat)
    requires i <= |s| && pat <= s[i..]
    ensures Contains(s, pat)
  {
  }

  /** Exactly such content keeps its line break when the delimiter is added. */
  lemma DelimiterStability(o: Bytes)
    ensures StableNewLine(o) <==> NewLine(Delimited(o)) == NewLine(o)
  {
    var d := Delimited(o);
    if o != [] && NewLine(o) == CRLF {
      CrlfInDelimited(o);
    } else if o != [] {
      assert d == o + LF;
      if o[|o| - 1] == '\r' {
        assert d[|o| - 1..] == CRLF;
        ContainsAt(d, CRLF, |o| - 1);
      } else {
        forall k | 0 <= k <= |d|
          ensures !(CRLF <= d[k..])
        {
          if k + 2 <= |o| {
            assert d[k..][..2] == o[k..][..2];
            assert !(CRLF <= o[k..]);
          } else if k < |d| {
            assert d[k..][0] == d[k];
          }
        }
      }
    }
  }

  /** The block brings the line break it was written with, and no other. */
  lemma ManagedNewLine(o: Bytes, spec: BlockSpec)
    requires PlainSpec(spec)
    ensures NewLine(Managed(o, spec)) == NewLine(Delimited(o))
    ensures StableNewLine(o) <==> NewLine(Delimited(o)) == NewLine(o)
  {
    var nl, d, s := NewLine(o), Delimited(o), Managed(o, spec);
    DelimiterStability(o);
    PartsArePlain(spec, nl);
    if Contains(d, CRLF) {
      var i := Index(d, CRLF).value;
      assert s[i..][..2] == d[i..][..2];
      ContainsAt(s, CRLF, i);
    } else {
      if nl == CRLF {
        CrlfInDelimited(o);
      }
      assert nl == LF;
      var block := Block(spec, nl);
      BlockHasNoCR(spec);
      forall k | 0 <= k <= |s|
        ensures !(CRLF <= s[k..])
      {
        NoCrlfAcross(d, block, k);
      }
    }
  }

  lemma BlockHasNoCR(spec: BlockSpec)
    requires PlainSpec(spec)
    ensures '\r' !in Block(spec, LF)
  {
    PartsArePlain(spec, LF);
    hide Head, Tail;
    MarkersDiffer();
  }

  lemma CrlfInDelimited(o: Bytes)
    requires NewLine(o) == CRLF
    ensures Contains(Delimited(o), CRLF)
  {
    var i := Index(o, CRLF).value;
    assert o != [] by {
      assert CRLF <= o[i..];
    }
    assert Delimited(o)[i..][..2] == o[i..][..2];
    ContainsAt(Delimited(o), CRLF, i);
  }

  lemma NoCrlfAcross(d: Bytes, block: Bytes, k: nat)
    requires !Contains(d, CRLF) && '\r' !in block && (d == [] || d[|d| - 1] == '\n') && k <= |d + block|
    ensures !(CRLF <= (d + block)[k..])
  {
    var s := d + block;
    if k + 2 <= |d| {
      assert s[k..][..2] == d[k..][..2];
      assert !(CRLF <= d[k..]);
    } else if k < |s| {
      assert s[k..][0] == s[k];
      if k >= |d| {
        assert s[k] == block[k - |d|] && block[k - |d|] in block;
      } else {
        assert s[k] == d[|d| - 1];
      }
    }
  }

  lemma StripUndoesDelimiter(o: Bytes)
    ensures StripDelimiter(Delimited(o), |Delimited(o)|, NewLine(o)) == o
  {
    assert NewLine([]) == LF by {
      assert !Contains([], CRLF);
    }
    assert Delimited(o)[..|o|] == o || o == [];
  }

  /** Inserting a block into marker-free content puts the delimiter and the block behind it, and hashes the content. */
  lemma UpsertInserts(o: Bytes, spec: BlockSpec)
    requires MarkerFree(o)
    ensures Upsert(o, spec) == Ok((Managed(o, spec), HashBytes(o)))
  {
    AbsentCountsZero(o, BEGIN);
    AbsentCountsZero(o, END);
    hide Count, Index, Block, NewLine;
    assert [] + Block(spec, NewLine(o)) == Block(spec, NewLine(o));
  }

  lemma SplitManaged(o: Bytes, spec: BlockSpec)
    ensures var s, d, want := Managed(o, spec), Delimited(o), Block(spec, NewLine(o));
      && |s| == |d| + |want| && s[..|d|] == d && s[|d|..] == want && s[|d|..|d| + |want|] == want
      && s[..|d|] + s[|d| + |want|..] == d
  {
  }

  /** Removing the block gives the content back exactly when the delimiter kept its line break. */
  lemma RemoveUndoesUpsert(o: Bytes, spec: BlockSpec)
    requires MarkerFree(o) && PlainSpec(spec)
    ensures Remove(Managed(o, spec), spec) == Ok(o) <==> StableNewLine(o)
    ensures !StableNewLine(o) ==> Remove(Managed(o, spec), spec) == Err(MissingOrDrifted)
  {
    ManagedMarkers(o, spec);
    ManagedNewLine(o, spec);
    SplitManaged(o, spec);
    StripUndoesDelimiter(o);
    hide Count, Index, Managed, Delimited, StableNewLine, NewLine, StripDelimiter, Block, PlainSpec, MarkerFree;
    if !StableNewLine(o) {
      OtherBlockIsAbsent(o, spec);
    }
  }

  /** With an unstable line break the block looked for is the CRLF one, and the file holds the LF one. */
  lemma OtherBlockIsAbsent(o: Bytes, spec: BlockSpec)
    requires MarkerFree(o) && PlainSpec(spec) && !StableNewLine(o)
    ensures !Contains(Managed(o, spec), Block(spec, NewLine(Managed(o, spec))))
  {
    hide Contains, Managed, Delimited, Block, StableNewLine, Count, Index, MarkerFree, PlainSpec;
    ManagedNewLine(o, spec);
    ManagedMarkers(o, spec);
    assert NewLine(o) == LF && NewLine(Managed(o, spec)) == CRLF by {
      if NewLine(o) == CRLF {
        CrlfInDelimited(o);
      }
    }
    BlockStarts(spec, CRLF);
    CrlfBlockIsLonger(spec);
    SplitManaged(o, spec);
    LateIsAbsent(Managed(o, spec), |Delimited(o)|, Block(spec, CRLF));
  }

  /** What starts with the marker, and is longer than what is left from the only marker on, is not there. */
  lemma LateIsAbsent(s: Bytes, start: nat, other: Bytes)
    requires Index(s, BEGIN) == Some(start) && start <= |s| && |s| - start < |other| && BEGIN <= other
    ensures !Contains(s, other)
  {
    hide Index;
    forall i | 0 <= i <= |s|
      ensures !(other <= s[i..])
    {
      if i < start {
        assert BEGIN <= s[i..] || !(other <= s[i..]);
      } else {
        assert |s[i..]| < |other|;
      }
    }
    NotFoundIsAbsent(s, other);
  }

  lemma NotFoundIsAbsent(s: Bytes, pat: Bytes)
    requires forall i :: 0 <= i <= |s| ==> !(pat <= s[i..])
    ensures !Contains(s, pat)
  {
  }

  lemma CrlfBlockIsLonger(spec: BlockSpec)
    ensures |Block(spec, CRLF)| == |Block(spec, LF)| + 2
  {
    hide Joined, Sort;
  }

  /** Upsert on content whose block is the one wanted: the content is kept and what surrounds the block is hashed. */
  lemma UpsertKeeps(content: Bytes, d: Bytes, want: Bytes, head: Bytes, spec: BlockSpec, nl: Bytes)
    requires content == d + want && NewLine(content) == nl && want == Block(spec, nl) && head == Head(spec, nl)
    requires Count(content, BEGIN) == 1 && Count(content, END) == 1 && Index(content, BEGIN) == Some(|d|)
    requires Index(want, END + Tail(spec)) == Some(|BEGIN| + |head|) && !Contains(head, BEGIN)
    ensures Upsert(content, spec) == Ok((content, HashBytes(StripDelimiter(d, |d|, nl))))
  {
    hide Count, Index, NewLine, StripDelimiter, Head, Tail;
    assert content[|d|..] == want;
    assert |want| == |BEGIN| + |head| + |END + Tail(spec)|;
    assert content[|d|..|d| + |want|] == want;
    assert content[..|d|] + content[|d| + |want|..] == d;
    assert content[|d| + |BEGIN|..|d| + |BEGIN| + |head|] == head;
  }

  /** Upserting the same block again changes nothing and reports the same outside hash. */
  lemma UpsertIsIdempotent(o: Bytes, spec: BlockSpec)
    requires MarkerFree(o) && PlainSpec(spec) && StableNewLine(o)
    ensures Upsert(Managed(o, spec), spec) == Ok((Managed(o, spec), HashBytes(o)))
  {
    hide Count, Index, Delimited, StableNewLine, NewLine, StripDelimiter, PlainSpec, MarkerFree, Head, Tail, Upsert,
      Block;
    ManagedMarkers(o, spec);
    ManagedNewLine(o, spec);
    StripUndoesDelimiter(o);
    LineBreaks(o);
    BlockMarkers(spec, NewLine(o));
    BlockInside(spec, NewLine(o));
    UpsertKeeps(Managed(o, spec), Delimited(o), Block(spec, NewLine(o)), Head(spec, NewLine(o)), spec, NewLine(o));
  }

  lemma LineBreaks(o: Bytes)
    ensures NewLine(o) == LF || NewLine(o) == CRLF
  {
  }

  lemma BlockInside(spec: BlockSpec, nl: Bytes)
    requires PlainSpec(spec) && (nl == LF || nl == CRLF)
    ensures var block := Block(spec, nl);
      && |block| == |BEGIN| + |Head(spec, nl)| + |END + Tail(spec)|
      && block[|BEGIN|..|BEGIN| + |Head(spec, nl)|] == Head(spec, nl)
      && !Contains(Head(spec, nl), BEGIN)
  {
    PartsArePlain(spec, nl);
    hide Head, Tail;
    BracketFree(Head(spec, nl), BEGIN);
  }
}
