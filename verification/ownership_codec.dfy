/** internal/core/ownership_codec.go: the ownership document. */
module OwnershipCodec {
  import opened Wrappers
  import opened Text
  import opened Timestamps
  import opened Ownerships

  const MAX_DOCUMENT_BYTES: nat := 0x10_0000
  /** bufio.Scanner's token limit: a longer line stops the scan. */
  const MAX_LINE_BYTES: nat := 0x1_0000

  const FIELDS: set<string> := {
    "Status", "Worker ID", "Session ID", "Generation", "Agent", "Acquired At", "Released At", "Purpose"}

  datatype CodecFault =
    TooLarge | Malformed | UnknownField(key: string) | DuplicateField(key: string) | LineTooLong
    | MissingField | BadTimestamp | BadGeneration | Invalid

  // ----- Reading -----

  /** The fields after one line: a line that is not a list item leaves them alone. */
  function AddLine(line: string, allowed: set<string>, fields: map<string, string>): Result<map<string, string>,
                   CodecFault> {
    var item := Trim(line);
    if !("- " <= item) then Ok(fields)
    else
      var text := item[2..];
      var i := IndexByte(text, ':');
      if i == |text| then Err(Malformed)
      else
        var key, value := Trim(text[..i]), Trim(text[i + 1..]);
        if key !in allowed then Err(UnknownField(key))
        else if key in fields then Err(DuplicateField(key))
        else Ok(fields[key := value])
  }

  /** The scan over the lines of the document. */
  function ScanFields(content: string, allowed: set<string>, fields: map<string, string>): Result<map<string, string>,
                      CodecFault>
    decreases |content|
  {
    if content == "" then Ok(fields)
    else
      var n := IndexByte(content, '\n');
      if n >= MAX_LINE_BYTES then Err(LineTooLong)
      else
        var added :- AddLine(content[..n], allowed, fields);
        ScanFields(if n == |content| then "" else content[n + 1..], allowed, added)
  }

  /** The record the fields spell, checked like any other. */
  function FromFields(fields: map<string, string>): Result<Ownership, CodecFault> {
    if !(FIELDS <= fields.Keys) then Err(MissingField)
    else
      var acquired := ParseTimestamp(fields["Acquired At"]);
      if acquired.None? then Err(BadTimestamp)
      else
        var generation := ParseUint(fields["Generation"]);
        if generation.None? then Err(BadGeneration)
        else
          var session := if IsNone(fields["Session ID"]) then "" else fields["Session ID"];
          var text := fields["Released At"];
          var none := text == "" || IsNone(text);
          if !none && ParseTimestamp(text).None? then Err(BadTimestamp)
          else
            var o := Ownership(fields["Status"], fields["Worker ID"], session, generation.value, fields["Agent"],
                               acquired.value, if none then None else ParseTimestamp(text), fields["Purpose"]);
            if ValidOwnership(o) then Ok(o) else Err(Invalid)
  }

  function Decode(content: string): Result<Ownership, CodecFault> {
    if |content| > MAX_DOCUMENT_BYTES then Err(TooLarge)
    else
      var fields :- ScanFields(content, FIELDS, map[]);
      FromFields(fields)
  }

  /** The scanner loop, filling the field map line by line. */
  method Scan(content: string, allowed: set<string>) returns (r: Result<map<string, string>, CodecFault>)
    ensures r == ScanFields(content, allowed, map[])
  {
    var fields: map<string, string> := map[];
    var offset := 0;
    assert content[0..] == content;
    while offset < |content|
      invariant offset <= |content|
      invariant ScanFields(content, allowed, map[]) == ScanFields(content[offset..], allowed, fields)
    {
      var rest := content[offset..];
      var n := IndexByte(rest, '\n');
      if n >= MAX_LINE_BYTES {
        return Err(LineTooLong);
      }
      var added := AddLine(rest[..n], allowed, fields);
      if added.Err? {
        return Err(added.error);
      }
      fields := added.value;
      assert n < |rest| ==> rest[n + 1..] == content[offset + n + 1..];
      offset := if n == |rest| then |content| else offset + n + 1;
    }
    assert ScanFields("", allowed, fields) == Ok(fields);
    return Ok(fields);
  }

  method DecodeOwnership(content: string) returns (r: Result<Ownership, CodecFault>)
    ensures r == Decode(content)
  {
    if |content| > MAX_DOCUMENT_BYTES {
      return Err(TooLarge);
    }
    var fields := Scan(content, FIELDS);
    if fields.Err? {
      return Err(fields.error);
    }
    return FromFields(fields.value);
  }

  // ----- Writing -----

  function FieldLine(key: string, value: string): string {
    "- " + key + ": " + value + "\n"
  }

  function SessionText(o: Ownership): string {
    if o.sessionID == "" then "none" else o.sessionID
  }

  function ReleasedText(o: Ownership): string {
    if o.releasedAt.None? then "none" else FormatTimestamp(o.releasedAt.value)
  }

  function FieldLines(fields: seq<(string, string)>): string {
    if fields == [] then "" else FieldLine(fields[0].0, fields[0].1) + FieldLines(fields[1..])
  }

  function FieldsOf(o: Ownership): seq<(string, string)> {
    [("Status", o.status), ("Worker ID", o.workerID), ("Session ID", SessionText(o)), ("Generation", Decimal(o.generation)),
     ("Agent", o.agent), ("Acquired At", FormatTimestamp(o.acquiredAt)), ("Released At", ReleasedText(o)), ("Purpose", o.purpose)]
  }

  const TITLE := "# UAWP Active Worker\n\n"

  /** EncodeOwnership. */
  function Encode(o: Ownership): Option<string> {
    if ValidOwnership(o) then Some(TITLE + FieldLines(FieldsOf(o))) else None
  }

  // ----- Round trip -----

  /** Single-line values survive one field line. */
  lemma LineIsScanned(key: string, value: string, rest: string, allowed: set<string>, fields: map<string, string>)
    requires allowed <= FIELDS && key in allowed && key !in fields && '\n' !in value && |value| <= MAX_FIELD_BYTES
    ensures ScanFields(FieldLine(key, value) + rest, allowed, fields) == ScanFields(rest, allowed, fields[key := Trim(value)])
  {
    var line := "- " + key + ": " + value;
    var content := FieldLine(key, value) + rest;
    assert content == line + ['\n'] + rest;
    KeyIsPlain(key);
    assert '\n' !in line;
    IndexOfSeparator(line, '\n', rest);
    assert content[..|line|] == line && content[|line| + 1..] == rest;
    FieldIsAdded(key, value, allowed, fields);
  }

  lemma KeyIsPlain(key: string)
    requires key in FIELDS
    ensures key != "" && ':' !in key && '\n' !in key && |key| <= 11 && Trimmed(key)
  {
  }

  lemma FieldIsAdded(key: string, value: string, allowed: set<string>, fields: map<string, string>)
    requires allowed <= FIELDS && key in allowed && key !in fields
    ensures AddLine("- " + key + ": " + value, allowed, fields) == Ok(fields[key := Trim(value)])
  {
    KeyIsPlain(key);
    var head, tail := "- " + key + ":", " " + value;
    var line := "- " + key + ": " + value;
    assert line == head + tail;
    TrimRightAfter(head, tail);
    assert TrimLeft(line) == line;
    var item := head + TrimRight(tail);
    assert Trim(line) == item;
    assert item[2..] == key + [':'] + TrimRight(tail);
    IndexOfSeparator(key, ':', TrimRight(tail));
    assert item[2..][..|key|] == key && item[2..][|key| + 1..] == TrimRight(tail);
    TrimFacts(key);
    TrimOfCutValue(value);
  }

  /** The map a list of field lines is read into. */
  function Gathered(fields: seq<(string, string)>, into: map<string, string>): map<string, string> {
    if fields == [] then into else Gathered(fields[1..], into[fields[0].0 := Trim(fields[0].1)])
  }

  predicate Writable(fields: seq<(string, string)>, allowed: set<string>, into: map<string, string>) {
    && allowed <= FIELDS
    && (forall i :: 0 <= i < |fields| ==>
          fields[i].0 in allowed && fields[i].0 !in into && '\n' !in fields[i].1 && |fields[i].1| <= MAX_FIELD_BYTES)
    && (forall i, k :: 0 <= i < k < |fields| ==> fields[i].0 != fields[k].0)
  }

  lemma {:induction false} LinesAreScanned(fields: seq<(string, string)>, allowed: set<string>, into: map<string, string>)
    requires Writable(fields, allowed, into)
    ensures ScanFields(FieldLines(fields), allowed, into) == Ok(Gathered(fields, into))
  {
    hide ScanFields, FieldLine, Trim;
    if fields == [] {
      EmptyScan(allowed, into);
    } else {
      LineIsScanned(fields[0].0, fields[0].1, FieldLines(fields[1..]), allowed, into);
      LinesAreScanned(fields[1..], allowed, into[fields[0].0 := Trim(fields[0].1)]);
    }
  }

  lemma EmptyScan(allowed: set<string>, fields: map<string, string>)
    ensures ScanFields("", allowed, fields) == Ok(fields)
  {
  }

  /** What a written record reads back as: fields trimmed, times to the second. */
  function Normalized(o: Ownership): Ownership {
    o.(workerID := Trim(o.workerID), sessionID := Trim(o.sessionID), agent := Trim(o.agent), purpose := Trim(o.purpose),
       acquiredAt := Floor(o.acquiredAt), releasedAt := if o.releasedAt.None? then None else Some(Floor(o.releasedAt.value)))
  }

  lemma DecimalIsClean(n: Uint64)
    ensures Trim(Decimal(n)) == Decimal(n) && '\n' !in Decimal(n) && |Decimal(n)| <= 20
  {
    assert Power10(4) == 10_000 && Power10(8) == 100_000_000 && Power10(12) == 1_000_000_000_000;
    assert Power10(16) == 10_000_000_000_000_000;
    assert Power10(20) == 100_000_000_000_000_000_000;
    DecimalIsShort(n, 20);
    TrimFacts(Decimal(n));
    assert Decimal(n)[0] in Decimal(n) && Decimal(n)[|Decimal(n)| - 1] in Decimal(n);
  }

  lemma PlainTextIsClean()
    ensures Trim("none") == "none" && IsNone("none") && Trim(ACTIVE) == ACTIVE && Trim(RELEASED) == RELEASED
  {
    assert Lower("none") == "none";
    TrimFacts("none");
    TrimFacts(ACTIVE);
    TrimFacts(RELEASED);
  }

  lemma FieldsAreWritable(o: Ownership)
    requires ValidOwnership(o)
    ensures Writable(FieldsOf(o), FIELDS, map[])
  {
    hide IsZero, Before, Trim, FormatTimestamp, Decimal, IsNone, Trimmed;
    DecimalIsClean(o.generation);
    FormatIsClean(o.acquiredAt);
    if o.releasedAt.Some? {
      FormatIsClean(o.releasedAt.value);
    }
    assert SingleLine(o.workerID) && SingleLine(o.agent) && SingleLine(o.purpose) && SingleLine(SessionText(o)) && SingleLine(o.status);
    assert '\n' !in ReleasedText(o) && |ReleasedText(o)| <= 25;
    hide SessionText, ReleasedText, ValidOwnership;
  }

  lemma {:induction false} LinesAreShort(fields: seq<(string, string)>, allowed: set<string>, into: map<string, string>)
    requires Writable(fields, allowed, into)
    ensures |FieldLines(fields)| <= |fields| * (MAX_FIELD_BYTES + 20)
  {
    if fields != [] {
      KeyIsPlain(fields[0].0);
      LinesAreShort(fields[1..], allowed, map[]);
    }
  }

  /** The document of a valid record is scanned into its eight fields. */
  lemma DocumentIsScanned(o: Ownership)
    requires ValidOwnership(o)
    ensures Encode(o).Some? && |Encode(o).value| <= MAX_DOCUMENT_BYTES
    ensures ScanFields(Encode(o).value, FIELDS, map[]) == Ok(Gathered(FieldsOf(o), map[]))
  {
    var fields := FieldsOf(o);
    FieldsAreWritable(o);
    LinesAreShort(fields, FIELDS, map[]);
    LinesAreScanned(fields, FIELDS, map[]);
    hide ValidOwnership, FieldsOf, FieldLines, Gathered, Writable;
    TitleIsSkipped(FieldLines(fields), FIELDS);
  }

  lemma TitleIsSkipped(rest: string, allowed: set<string>)
    ensures ScanFields(TITLE + rest, allowed, map[]) == ScanFields(rest, allowed, map[])
  {
    var title := "# UAWP Active Worker";
    assert TITLE + rest == title + ['\n'] + (['\n'] + rest);
    IndexOfSeparator(title, '\n', ['\n'] + rest);
    assert (TITLE + rest)[..|title|] == title && (TITLE + rest)[|title| + 1..] == ['\n'] + rest;
    TrimFacts(title);
    assert AddLine(title, allowed, map[]) == Ok(map[]);
    SkipBlankLine(rest, allowed);
  }

  lemma SkipBlankLine(rest: string, allowed: set<string>)
    ensures ScanFields(['\n'] + rest, allowed, map[]) == ScanFields(rest, allowed, map[])
  {
    var content := ['\n'] + rest;
    assert content == "" + ['\n'] + rest;
    IndexOfSeparator("", '\n', rest);
    assert content[..0] == "" && content[1..] == rest;
    assert AddLine("", allowed, map[]) == Ok(map[]);
  }

  lemma GatheredFields(o: Ownership)
    requires ValidOwnership(o)
    ensures var m := Gathered(FieldsOf(o), map[]);
      && FIELDS <= m.Keys
      && m["Status"] == o.status && m["Worker ID"] == Trim(o.workerID) && m["Agent"] == Trim(o.agent)
      && m["Session ID"] == Trim(SessionText(o)) && m["Generation"] == Decimal(o.generation)
      && m["Acquired At"] == FormatTimestamp(o.acquiredAt) && m["Released At"] == ReleasedText(o)
      && m["Purpose"] == Trim(o.purpose)
  {
    PlainTextIsClean();
    DecimalIsClean(o.generation);
    FormatIsClean(o.acquiredAt);
    TrimFacts(FormatTimestamp(o.acquiredAt));
    if o.releasedAt.Some? {
      FormatIsClean(o.releasedAt.value);
      TrimFacts(FormatTimestamp(o.releasedAt.value));
    }
    hide ValidOwnership, Trim, FormatTimestamp, Decimal, Gathered, Writable, FieldsOf;
    FieldsAreWritable(o);
    GatheredAll(FieldsOf(o), FIELDS);
    FieldsByName(o);
  }

  /** Each field of a writable list is found under its key. */
  lemma GatheredAll(fields: seq<(string, string)>, allowed: set<string>)
    requires Writable(fields, allowed, map[])
    ensures forall i :: 0 <= i < |fields| ==>
      fields[i].0 in Gathered(fields, map[]) && Gathered(fields, map[])[fields[i].0] == Trim(fields[i].1)
  {
    hide Trim, Gathered, Writable;
    forall i | 0 <= i < |fields|
      ensures fields[i].0 in Gathered(fields, map[]) && Gathered(fields, map[])[fields[i].0] == Trim(fields[i].1)
    {
      GatheredAt(fields, allowed, map[], i);
    }
  }

  lemma FieldsByName(o: Ownership)
    requires ValidOwnership(o)
    ensures var f := FieldsOf(o);
      && |f| == 8 && f[0] == ("Status", o.status) && f[1] == ("Worker ID", o.workerID) && f[2] == ("Session ID", SessionText(o))
      && f[3] == ("Generation", Decimal(o.generation)) && f[4] == ("Agent", o.agent)
      && f[5] == ("Acquired At", FormatTimestamp(o.acquiredAt)) && f[6] == ("Released At", ReleasedText(o)) && f[7] == ("Purpose", o.purpose)
  {
    hide ValidOwnership, SessionText, ReleasedText, Decimal, FormatTimestamp;
  }

  lemma {:induction false} GatheredKeeps(fields: seq<(string, string)>, into: map<string, string>, key: string)
    requires key in into && forall i :: 0 <= i < |fields| ==> fields[i].0 != key
    ensures key in Gathered(fields, into) && Gathered(fields, into)[key] == into[key]
  {
    hide Trim;
    if fields != [] {
      GatheredKeeps(fields[1..], into[fields[0].0 := Trim(fields[0].1)], key);
    }
  }

  lemma {:induction false} GatheredAt(fields: seq<(string, string)>, allowed: set<string>, into: map<string, string>, i: nat)
    requires Writable(fields, allowed, into) && i < |fields|
    ensures fields[i].0 in Gathered(fields, into) && Gathered(fields, into)[fields[i].0] == Trim(fields[i].1)
  {
    hide Trim;
    var next := into[fields[0].0 := Trim(fields[0].1)];
    if i == 0 {
      GatheredKeeps(fields[1..], next, fields[0].0);
    } else {
      GatheredAt(fields[1..], allowed, next, i - 1);
      assert fields[1..][i - 1] == fields[i];
    }
  }

  lemma NormalizedIsValid(o: Ownership)
    requires ValidOwnership(o)
    ensures ValidOwnership(Normalized(o)) <==> Seconds(o.acquiredAt) != 0
  {
    TrimFacts(o.workerID);
    TrimFacts(o.sessionID);
    TrimFacts(o.agent);
    TrimFacts(o.purpose);
    hide Trim, IsNone, Trimmed;
    assert Seconds(Floor(o.acquiredAt)) == Seconds(o.acquiredAt);
    if o.releasedAt.Some? {
      FloorKeepsOrder(o.acquiredAt, o.releasedAt.value);
    }
    hide Seconds;
  }

  lemma SessionIsRestored(o: Ownership)
    requires ValidOwnership(o)
    ensures var text := Trim(SessionText(o)); (if IsNone(text) then "" else text) == Trim(o.sessionID)
  {
    PlainTextIsClean();
  }

  lemma ReleasedIsRestored(o: Ownership)
    ensures var text := ReleasedText(o);
      var none := text == "" || IsNone(text);
      && (none <==> o.releasedAt.None?)
      && (!none ==> ParseTimestamp(text) == Some(Floor(o.releasedAt.value)))
  {
    PlainTextIsClean();
    if o.releasedAt.Some? {
      FormatIsClean(o.releasedAt.value);
      ParseUndoesFormat(o.releasedAt.value);
    }
  }

  /** Writing and reading back any valid record gives the record with its fields trimmed and its times cut to the
      second; the one exception is a claim acquired inside the zero second, which no longer reads at all. */
  lemma DecodeUndoesEncode(o: Ownership)
    requires ValidOwnership(o)
    ensures Encode(o).Some?
    ensures Decode(Encode(o).value) == if Seconds(o.acquiredAt) == 0 then Err(Invalid) else Ok(Normalized(o))
  {
    DocumentIsScanned(o);
    GatheredFields(o);
    NormalizedIsValid(o);
    SessionIsRestored(o);
    ReleasedIsRestored(o);
    ParseUndoesFormat(o.acquiredAt);
    ParseUintUndoesDecimal(o.generation);
    hide ScanFields, Gathered, FieldsOf, ValidOwnership, Trim, IsNone, ParseTimestamp, FormatTimestamp, Decimal,
      Seconds, Floor, SessionText, ReleasedText,
      ParseUint, Encode;
    var m := Gathered(FieldsOf(o), map[]);
    assert FromFields(m) == if Seconds(o.acquiredAt) == 0 then Err(Invalid) else Ok(Normalized(o));
  }

  predicate WholeSeconds(o: Ownership) {
    o.acquiredAt.nanosecond == 0 && (o.releasedAt.Some? ==> o.releasedAt.value.nanosecond == 0)
  }

  predicate FieldsTrimmed(o: Ownership) {
    Trimmed(o.workerID) && Trimmed(o.sessionID) && Trimmed(o.agent) && Trimmed(o.purpose)
  }

  /** On trimmed records with whole seconds the document is the record: reading gives it back exactly, so no two
      of them share a document. */
  lemma EncodeIsInjective(o: Ownership, o': Ownership)
    requires ValidOwnership(o) && WholeSeconds(o) && FieldsTrimmed(o)
    requires ValidOwnership(o') && WholeSeconds(o') && FieldsTrimmed(o')
    ensures Decode(Encode(o).value) == Ok(o)
    ensures Encode(o) == Encode(o') ==> o == o'
  {
    DecodeUndoesEncode(o);
    DecodeUndoesEncode(o');
    PlainIsNormalized(o);
    PlainIsNormalized(o');
    hide Encode, Decode, Trim, Seconds;
  }

  lemma PlainIsNormalized(o: Ownership)
    requires ValidOwnership(o) && WholeSeconds(o) && FieldsTrimmed(o)
    ensures Normalized(o) == o && Seconds(o.acquiredAt) != 0
  {
    TrimFacts(o.workerID);
    TrimFacts(o.sessionID);
    TrimFacts(o.agent);
    TrimFacts(o.purpose);
    hide Trim, Seconds, Trimmed;
    assert o.acquiredAt == Floor(o.acquiredAt);
    if o.releasedAt.Some? {
      assert o.releasedAt.value == Floor(o.releasedAt.value);
      assert o.releasedAt == Some(o.releasedAt.value);
    }
  }
}
