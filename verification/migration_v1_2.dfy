/** internal/migration/v1_1_to_v1_2.go: the ownership document gains a session and a generation. */
module MigrationV12 {
  import opened Wrappers
  import opened Records
  import opened Text
  import opened Timestamps
  import opened Ownerships
  import opened OwnershipCodec

  const LEGACY_FIELDS: set<string> := {"Status", "Worker ID", "Agent", "Acquired At", "Released At", "Purpose"}

  predicate LegacyText(field: string) {
    Trim(field) != "" && '\r' !in field && '\n' !in field
  }

  /** The legacy record the fields spell. */
  function FromLegacyFields(fields: map<string, string>): Result<Ownership, CodecFault> {
    if !(LEGACY_FIELDS <= fields.Keys) then Err(MissingField)
    else
      var acquired := ParseTimestamp(fields["Acquired At"]);
      if acquired.None? then Err(BadTimestamp)
      else
        var text := fields["Released At"];
        var none := text == "" || IsNone(text);
        if !none && ParseTimestamp(text).None? then Err(BadTimestamp)
        else
          var o := Ownership(fields["Status"], fields["Worker ID"], "", 0, fields["Agent"], acquired.value,
                             if none then None else ParseTimestamp(text), fields["Purpose"]);
          if !LegacyText(o.workerID) || !LegacyText(o.agent) || !LegacyText(o.purpose) then Err(Invalid)
          else if o.status == ACTIVE then if o.releasedAt.None? then Ok(o) else Err(Invalid)
          else if o.status == RELEASED then
            if o.releasedAt.Some? && !Before(o.releasedAt.value, o.acquiredAt) then Ok(o) else Err(Invalid)
          else Err(Invalid)
  }

  /** What a 1.1 document means; there is no size limit on this one. */
  function DecodeLegacy(content: string): Result<Ownership, CodecFault> {
    var fields :- ScanFields(content, LEGACY_FIELDS, map[]);
    FromLegacyFields(fields)
  }

  method DecodeLegacyOwnership(content: string) returns (r: Result<Ownership, CodecFault>)
    ensures r == DecodeLegacy(content)
    ensures r.Ok? ==> Spells(content, r.value) && LegacyRecord(r.value)
    ensures r.Err? ==> forall o :: !(Spells(content, o) && LegacyRecord(o))
  {
    hide Spells, LegacyRecord;
    forall o
      ensures DecodeLegacy(content) == Ok(o) <==> Spells(content, o) && LegacyRecord(o)
    {
      LegacyIsExact(content, o);
    }
    hide FromLegacyFields, ScanFields;
    var fields := Scan(content, LEGACY_FIELDS);
    if fields.Err? {
      return Err(fields.error);
    }
    return FromLegacyFields(fields.value);
  }

  datatype MigrationFault = WrongVersion | SnapshotMissing | InputMismatch | LegacyInvalid | StillActive | Unencodable

  datatype Context = Context(protocol: string, stateVersion: string, inputs: seq<Input>, files: map<string, Bytes>)

  const PROTOCOL_NAME := "UAWP"
  const STATE_1_1 := "1.1.0"

  function OwnerInput(inputs: seq<Input>): Digest {
    if inputs == [] then NoDigest
    else if inputs[0].path == OWNER_PATH then inputs[0].sha256
    else OwnerInput(inputs[1..])
  }

  /** What Plan does with a context. */
  function Planned(context: Context): Result<seq<Change>, MigrationFault> {
    if context.protocol != PROTOCOL_NAME || context.stateVersion != STATE_1_1 then Err(WrongVersion)
    else if OWNER_PATH !in context.files then Err(SnapshotMissing)
    else
      var before, hash := context.files[OWNER_PATH], OwnerInput(context.inputs);
      if hash == NoDigest || hash != HashBytes(before) then Err(InputMismatch)
      else
        var legacy := DecodeLegacy(before);
        if legacy.Err? then Err(LegacyInvalid)
        else if legacy.value.status != RELEASED then Err(StillActive)
        else
          var encoded := Encode(legacy.value);
          if encoded.None? then Err(Unencodable)
          else Ok([WithSequence(NewUpdateFile(OWNER_PATH, PRIVATE_FILE_MODE, hash, encoded.value), 80)])
  }

  /** V1_1ToV1_2.Plan, with its search through the inputs. */
  method Plan(context: Context) returns (r: Result<seq<Change>, MigrationFault>)
    ensures r == Planned(context)
  {
    if context.protocol != PROTOCOL_NAME || context.stateVersion != STATE_1_1 {
      return Err(WrongVersion);
    }
    if OWNER_PATH !in context.files {
      return Err(SnapshotMissing);
    }
    var before := context.files[OWNER_PATH];
    var hash := NoDigest;
    var i := 0;
    assert context.inputs[0..] == context.inputs;
    while i < |context.inputs|
      invariant i <= |context.inputs| && hash == NoDigest
      invariant OwnerInput(context.inputs) == OwnerInput(context.inputs[i..])
    {
      if context.inputs[i].path == OWNER_PATH {
        hash := context.inputs[i].sha256;
        break;
      }
      assert context.inputs[i..][1..] == context.inputs[i + 1..];
      i := i + 1;
    }
    assert hash == OwnerInput(context.inputs);
    if hash == NoDigest || hash != HashBytes(before) {
      return Err(InputMismatch);
    }
    var legacy := DecodeLegacyOwnership(before);
    if legacy.Err? {
      return Err(LegacyInvalid);
    }
    if legacy.value.status != RELEASED {
      return Err(StillActive);
    }
    var encoded := Encode(legacy.value);
    if encoded.None? {
      return Err(Unencodable);
    }
    return Ok([WithSequence(NewUpdateFile(OWNER_PATH, PRIVATE_FILE_MODE, hash, encoded.value), 80)]);
  }

  // ----- Meaning -----

  /** The old format's own fields, each with its white space trimmed. */
  predicate Gathers(fields: map<string, string>, allowed: set<string>) {
    fields.Keys <= allowed && forall k :: k in fields ==> Trimmed(fields[k])
  }

  lemma {:induction false} ScannedAreGathered(content: string, allowed: set<string>, fields: map<string, string>)
    requires Gathers(fields, allowed) && ScanFields(content, allowed, fields).Ok?
    ensures Gathers(ScanFields(content, allowed, fields).value, allowed)
    decreases |content|
  {
    hide AddLine, Gathers, IndexByte;
    if content != "" {
      var n := IndexByte(content, '\n');
      AddedIsGathered(content[..n], allowed, fields);
      ScannedAreGathered(if n == |content| then "" else content[n + 1..], allowed, AddLine(content[..n], allowed, fields).value);
    }
  }

  lemma AddedIsGathered(line: string, allowed: set<string>, fields: map<string, string>)
    requires Gathers(fields, allowed)
    ensures AddLine(line, allowed, fields).Ok? ==> Gathers(AddLine(line, allowed, fields).value, allowed)
  {
    var item := Trim(line);
    if "- " <= item {
      var text := item[2..];
      var i := IndexByte(text, ':');
      if i < |text| {
        TrimFacts(text[i + 1..]);
      }
    }
    hide Trim, IndexByte;
  }

  /** A record of the old format: named, one line a field, released exactly when it has a release time, which is not
      before its acquisition; no session and generation 0. */
  predicate LegacyRecord(o: Ownership) {
    && FieldsTrimmed(o) && o.sessionID == "" && o.generation == 0
    && LegacyText(o.workerID) && LegacyText(o.agent) && LegacyText(o.purpose)
    && if o.releasedAt.None? then o.status == ACTIVE
       else o.status == RELEASED && !Before(o.releasedAt.value, o.acquiredAt)
  }

  /** The document has the six fields of the old format, once each and no other, and they spell the record. */
  predicate Spells(content: string, o: Ownership) {
    var scanned := ScanFields(content, LEGACY_FIELDS, map[]);
    && scanned.Ok? && scanned.value.Keys == LEGACY_FIELDS
    && var fields := scanned.value;
      && fields["Status"] == o.status && fields["Worker ID"] == o.workerID && fields["Agent"] == o.agent
      && fields["Purpose"] == o.purpose && ParseTimestamp(fields["Acquired At"]) == Some(o.acquiredAt)
      && if fields["Released At"] == "" || IsNone(fields["Released At"]) then o.releasedAt == None
         else o.releasedAt.Some? && ParseTimestamp(fields["Released At"]) == o.releasedAt
  }

  /** Reading is exact: a document is read as a record exactly when it spells that record and the record is in order. */
  lemma LegacyIsExact(content: string, o: Ownership)
    ensures DecodeLegacy(content) == Ok(o) <==> Spells(content, o) && LegacyRecord(o)
  {
    hide ScanFields, ParseTimestamp, Trimmed, Before, LegacyText, IsNone;
    EmptyIsTrimmed();
    var scanned := ScanFields(content, LEGACY_FIELDS, map[]);
    if scanned.Ok? {
      assert Gathers(map[], LEGACY_FIELDS);
      ScannedAreGathered(content, LEGACY_FIELDS, map[]);
    }
  }

  lemma EmptyIsTrimmed()
    ensures Trimmed("")
  {
  }

  /** A document of the old format. */
  function LegacyFields(o: Ownership): seq<(string, string)> {
    [("Status", o.status), ("Worker ID", o.workerID), ("Agent", o.agent), ("Acquired At", FormatTimestamp(o.acquiredAt)),
     ("Released At", ReleasedText(o)), ("Purpose", o.purpose)]
  }

  function LegacyDocument(o: Ownership): string {
    TITLE + FieldLines(LegacyFields(o))
  }

  function ToTheSecond(o: Ownership): Ownership {
    o.(acquiredAt := Floor(o.acquiredAt), releasedAt := if o.releasedAt.None? then None else Some(Floor(o.releasedAt.value)))
  }

  predicate Short(o: Ownership) {
    |o.workerID| <= MAX_FIELD_BYTES && |o.agent| <= MAX_FIELD_BYTES && |o.purpose| <= MAX_FIELD_BYTES
  }

  lemma LegacyIsWritable(o: Ownership)
    requires LegacyRecord(o) && Short(o)
    ensures Writable(LegacyFields(o), LEGACY_FIELDS, map[])
  {
    hide Before, Trim, FormatTimestamp, Trimmed;
    FormatIsClean(o.acquiredAt);
    if o.releasedAt.Some? {
      FormatIsClean(o.releasedAt.value);
    }
    assert '\n' !in o.status && |o.status| <= 8;
    assert '\n' !in ReleasedText(o) && |ReleasedText(o)| <= 25;
    hide ReleasedText, LegacyRecord;
  }

  lemma LegacyGathered(o: Ownership)
    requires LegacyRecord(o) && Short(o)
    ensures var m := Gathered(LegacyFields(o), map[]);
      && LEGACY_FIELDS <= m.Keys
      && m["Status"] == o.status && m["Worker ID"] == o.workerID && m["Agent"] == o.agent && m["Purpose"] == o.purpose
      && m["Acquired At"] == FormatTimestamp(o.acquiredAt) && m["Released At"] == ReleasedText(o)
  {
    hide LegacyRecord, Trim, FormatTimestamp, Gathered, Writable, ReleasedText, LegacyFields;
    LegacyIsWritable(o);
    LegacyIsTrimmed(o);
    GatheredAll(LegacyFields(o), LEGACY_FIELDS);
    LegacyByName(o);
  }

  lemma LegacyByName(o: Ownership)
    ensures var f := LegacyFields(o);
      && |f| == 6 && f[0] == ("Status", o.status) && f[1] == ("Worker ID", o.workerID) && f[2] == ("Agent", o.agent)
      && f[3] == ("Acquired At", FormatTimestamp(o.acquiredAt)) && f[4] == ("Released At", ReleasedText(o)) && f[5] == ("Purpose", o.purpose)
  {
    hide ReleasedText, FormatTimestamp;
  }

  lemma LegacyIsTrimmed(o: Ownership)
    requires LegacyRecord(o)
    ensures forall i :: 0 <= i < 6 ==> Trim(LegacyFields(o)[i].1) == LegacyFields(o)[i].1
  {
    PlainTextIsClean();
    TrimFacts(o.workerID);
    TrimFacts(o.agent);
    TrimFacts(o.purpose);
    FormatIsClean(o.acquiredAt);
    TrimFacts(FormatTimestamp(o.acquiredAt));
    if o.releasedAt.Some? {
      FormatIsClean(o.releasedAt.value);
      TrimFacts(FormatTimestamp(o.releasedAt.value));
    }
    hide Trim, FormatTimestamp;
  }

  lemma LegacyIsScanned(o: Ownership)
    requires LegacyRecord(o) && Short(o)
    ensures ScanFields(LegacyDocument(o), LEGACY_FIELDS, map[]) == Ok(Gathered(LegacyFields(o), map[]))
  {
    LegacyIsWritable(o);
    LinesAreScanned(LegacyFields(o), LEGACY_FIELDS, map[]);
    hide LegacyRecord, LegacyFields, FieldLines, Gathered, Writable;
    TitleIsSkipped(FieldLines(LegacyFields(o)), LEGACY_FIELDS);
  }

  /** Any record of the old format has a document that reads back as the record, to the second. */
  lemma LegacyDocumentReads(o: Ownership)
    requires LegacyRecord(o) && Short(o)
    ensures DecodeLegacy(LegacyDocument(o)) == Ok(ToTheSecond(o))
  {
    LegacyIsScanned(o);
    LegacyGathered(o);
    ParseUndoesFormat(o.acquiredAt);
    ReleasedIsRestored(o);
    FlooredIsLegacy(o);
    hide ScanFields, Gathered, LegacyFields, LegacyRecord, LegacyDocument, ReleasedText, FormatTimestamp, ParseTimestamp, IsNone, Floor;
    ScannedAreExact(o);
    LegacyIsExact(LegacyDocument(o), ToTheSecond(o));
  }

  lemma ScannedAreExact(o: Ownership)
    requires LegacyRecord(o) && Short(o)
    ensures Gathered(LegacyFields(o), map[]).Keys <= LEGACY_FIELDS
  {
    hide ScanFields, LegacyRecord, Gathered, LegacyFields, LegacyDocument, Trimmed;
    LegacyIsScanned(o);
    assert Gathers(map[], LEGACY_FIELDS);
    ScannedAreGathered(LegacyDocument(o), LEGACY_FIELDS, map[]);
  }

  lemma FlooredIsLegacy(o: Ownership)
    requires LegacyRecord(o)
    ensures LegacyRecord(ToTheSecond(o))
  {
    hide Seconds, Trimmed, LegacyText;
    if o.releasedAt.Some? {
      FloorKeepsOrder(o.acquiredAt, o.releasedAt.value);
    }
  }

  /** The migration keeps the meaning: whenever it plans its change, the new decoder reads the new document as the
      record the old decoder read in the old one, with times cut to the second, no session and generation 0; and the
      next acquisition of that record is generation 1. The exception is the codec's: a claim of the zero second. */
  lemma MigrationKeepsMeaning(context: Context, request: AcquireRequest)
    requires Planned(context).Ok?
    ensures OWNER_PATH in context.files && DecodeLegacy(context.files[OWNER_PATH]).Ok?
    ensures var before := context.files[OWNER_PATH];
      var legacy, c := DecodeLegacy(before).value, Planned(context).value[0];
      && Planned(context).value == [c] && c.path == OWNER_PATH && c.before == HashBytes(before)
      && legacy.status == RELEASED && legacy.sessionID == "" && legacy.generation == 0
      && Decode(c.content) == (
           if Seconds(legacy.acquiredAt) == 0 then Err(Invalid)
           else Ok(legacy.(acquiredAt := Floor(legacy.acquiredAt), releasedAt := Some(Floor(legacy.releasedAt.value)))))
      && (Decode(c.content).Ok? && Acquire(Decode(c.content).value, request).Some? ==>
            Acquire(Decode(c.content).value, request).value.generation == 1)
  {
    hide DecodeLegacy, Decode, Trim, Seconds, FieldsTrimmed, IsNone, SingleLine, Spells, LegacyText, Before;
    var legacy := DecodeLegacy(context.files[OWNER_PATH]).value;
    LegacyIsExact(context.files[OWNER_PATH], legacy);
    DecodeUndoesEncode(legacy);
    TrimmedNormalizes(legacy);
    hide Encode, ValidOwnership, Normalized;
  }

  lemma TrimmedNormalizes(o: Ownership)
    requires FieldsTrimmed(o) && ValidOwnership(o) && o.status == RELEASED
    ensures Normalized(o) == o.(acquiredAt := Floor(o.acquiredAt), releasedAt := Some(Floor(o.releasedAt.value)))
  {
    TrimFacts(o.workerID);
    TrimFacts(o.sessionID);
    TrimFacts(o.agent);
    TrimFacts(o.purpose);
    hide Trim, Trimmed, Seconds;
  }
}
