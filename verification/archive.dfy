/** internal/workspace/export.go: what an accepted export archive holds. */
module Archives {
  import opened Wrappers
  import opened Records
  import opened Engine
  import opened UTF8

  /** The regular files and directories under .uawp, by relative path. */
  type Entries = map<string, Node>

  /** What the manifest says of one entry. */
  datatype Listed = Listed(directory: bool, mode: nat, size: nat, sha256: Digest)

  datatype ExportEntry = ExportEntry(path: string, listed: Listed)

  /** One member of the tar stream. */
  datatype Member = Member(name: string, directory: bool, mode: nat, content: Bytes)

  const MANIFEST_NAME := "export-manifest.json"

  /** Name checking, manifest encoding and manifest reading, which this model leaves open. */
  datatype Format = Format(
    clean: string -> bool, manifest: seq<ExportEntry> -> Bytes, parse: Bytes -> Option<seq<ExportEntry>>)

  /** VerifyExportFile reads no more of a manifest than this. */
  const MAX_MANIFEST_BYTES: nat := 0x10_0000

  /** The hash of an archive, as a free constructor. */
  datatype ArchiveDigest = NoArchive | ArchiveSHA256(members: seq<Member>)

  function ListedOf(node: Node): Listed {
    match node
    case Directory(mode) => Listed(true, mode, 0, NoDigest)
    case File(content, mode) => Listed(false, mode, |content|, HashBytes(content))
  }

  function MemberName(e: ExportEntry): string {
    ".uawp/" + e.path + if e.listed.directory then "/" else ""
  }

  function MemberOf(path: string, node: Node): Member {
    Member(MemberName(ExportEntry(path, ListedOf(node))), node.Directory?, node.mode, if node.File? then node.content else [])
  }

  /** The listing in a given order of paths. */
  function ListingIn(entries: Entries, order: seq<string>): seq<ExportEntry>
    requires forall p :: p in order ==> p in entries
  {
    seq(|order|, i requires 0 <= i < |order| => ExportEntry(order[i], ListedOf(entries[order[i]])))
  }

  /** The archive CreateVerifiedExport writes: the manifest and then every entry. */
  function ArchiveIn(format: Format, entries: Entries, order: seq<string>): seq<Member>
    requires forall p :: p in order ==> p in entries
  {
    [Member(MANIFEST_NAME, false, PRIVATE_FILE_MODE, format.manifest(ListingIn(entries, order)))]
    + seq(|order|, i requires 0 <= i < |order| => MemberOf(order[i], entries[order[i]]))
  }

  // ----- Verification -----

  /** Mode, size, kind and hash of a member agree with its listing. */
  predicate Agrees(m: Member, l: Listed) {
    && m.mode == l.mode && |m.content| == l.size && m.directory == l.directory
    && (!l.directory ==> HashBytes(m.content) == l.sha256)
  }

  function Expected(listing: seq<ExportEntry>): map<string, Listed> {
    if listing == [] then map[]
    else Expected(listing[..|listing| - 1])[MemberName(listing[|listing| - 1]) := listing[|listing| - 1].listed]
  }

  /** One member is in order by itself. */
  predicate MemberFits(format: Format, m: Member, listing: seq<ExportEntry>) {
    && format.clean(m.name)
    && if m.name == MANIFEST_NAME then !m.directory && m.content == format.manifest(listing)
       else m.name in Expected(listing) && Agrees(m, Expected(listing)[m.name])
  }

  /** What verifyExportArchive accepts: no name twice, every member in order, and nothing missing. */
  ghost predicate Accepted(format: Format, members: seq<Member>, listing: seq<ExportEntry>) {
    && (forall i, k :: 0 <= i < k < |members| ==> members[i].name != members[k].name)
    && (forall i :: 0 <= i < |members| ==> MemberFits(format, members[i], listing))
    && (exists i :: 0 <= i < |members| && members[i].name == MANIFEST_NAME)
    && (forall n :: n in Expected(listing) ==> exists i :: 0 <= i < |members| && members[i].name == n)
  }

  /** verifyExportArchive. */
  method VerifyExportArchive(format: Format, members: seq<Member>, listing: seq<ExportEntry>) returns (ok: bool)
    ensures ok <==> Accepted(format, members, listing)
  {
    hide MemberFits;
    var expected: map<string, Listed> := map[];
    for i := 0 to |listing|
      invariant expected == Expected(listing[..i])
    {
      assert listing[..i + 1][..i] == listing[..i];
      expected := expected[MemberName(listing[i]) := listing[i].listed];
    }
    assert listing[..|listing|] == listing;
    hide MemberName, Expected;
    var seen: set<string> := {};
    for i := 0 to |members|
      invariant forall n :: n in seen <==> exists k :: 0 <= k < i && members[k].name == n
      invariant forall j, k :: 0 <= j < k < i ==> members[j].name != members[k].name
      invariant forall k :: 0 <= k < i ==> MemberFits(format, members[k], listing)
    {
      var m := members[i];
      MemberIsTested(format, m, listing);
      if !format.clean(m.name) || m.name in seen {
        return false;
      }
      seen := seen + {m.name};
      if m.name == MANIFEST_NAME {
        if m.directory || m.content != format.manifest(listing) {
          return false;
        }
      } else {
        if m.name !in expected {
          return false;
        }
        var l := expected[m.name];
        if m.mode != l.mode || |m.content| != l.size {
          return false;
        }
        if l.directory != m.directory || (!l.directory && l.sha256 != HashBytes(m.content)) {
          return false;
        }
      }
    }
    if MANIFEST_NAME !in seen {
      return false;
    }
    ok := expected.Keys <= seen;
    assert ok <==> forall n :: n in expected ==> n in seen;
  }

  /** What the loop asks of one member. */
  lemma MemberIsTested(format: Format, m: Member, listing: seq<ExportEntry>)
    ensures var expected := Expected(listing);
      MemberFits(format, m, listing) <==>
        && format.clean(m.name)
        && if m.name == MANIFEST_NAME then !m.directory && m.content == format.manifest(listing)
           else
             && m.name in expected && m.mode == expected[m.name].mode && |m.content| == expected[m.name].size
             && m.directory == expected[m.name].directory
             && (!m.directory ==> HashBytes(m.content) == expected[m.name].sha256)
  {
    hide Expected;
  }

  /** What VerifyExportFile reads of a manifest. */
  function FrontOf(content: Bytes): Bytes {
    if |content| > MAX_MANIFEST_BYTES then content[..MAX_MANIFEST_BYTES] else content
  }

  /** The file verifies by itself: its manifest comes first, can be read as far as it is read, and agrees with the rest. */
  ghost predicate FileVerifies(format: Format, members: seq<Member>) {
    && members != [] && members[0].name == MANIFEST_NAME && !members[0].directory
    && format.parse(FrontOf(members[0].content)).Some?
    && Accepted(format, members, format.parse(FrontOf(members[0].content)).value)
  }

  /** VerifyExportFile: the hash of an archive that verifies by itself. */
  method VerifyExportFile(format: Format, members: seq<Member>) returns (r: Option<ArchiveDigest>)
    ensures r == if FileVerifies(format, members) then Some(ArchiveSHA256(members)) else None
  {
    if members == [] || members[0].name != MANIFEST_NAME || members[0].directory {
      return None;
    }
    var raw := FrontOf(members[0].content);
    var listing := format.parse(raw);
    if listing.None? {
      return None;
    }
    var ok := VerifyExportArchive(format, members, listing.value);
    return if ok then Some(ArchiveSHA256(members)) else None;
  }

  /** Names that JSON text can hold. */
  predicate Legible(listing: seq<ExportEntry>) {
    forall e :: e in listing ==> ValidUTF8(e.path)
  }

  /** The first k bytes of the manifest are read exactly when at most its last byte, a line feed, is missing. What is read
      is the listing if its names are valid UTF-8; other names are read as others, which are written differently. */
  predicate ReadsBack(format: Format, listing: seq<ExportEntry>, k: nat)
    requires k <= |format.manifest(listing)|
  {
    var r := format.parse(format.manifest(listing)[..k]);
    && (r.Some? <==> k + 1 >= |format.manifest(listing)|)
    && (r.Some? ==> if Legible(listing) then r.value == listing else format.manifest(r.value) != format.manifest(listing))
  }

  /** What is assumed of the format; every entry takes at least a byte. */
  ghost predicate GoodFormat(format: Format) {
    forall l ::
      && |format.manifest(l)| > |l| && format.manifest(l)[|format.manifest(l)| - 1] == '\n'
      && forall k :: 0 <= k <= |format.manifest(l)| ==> ReadsBack(format, l, k)
  }

  // ----- What acceptance means -----

  /** The member restores exactly this entry. */
  predicate Restores(m: Member, path: string, node: Node) {
    m == MemberOf(path, node)
  }

  /** The archive holds exactly these entries: each once, with its kind, mode and bytes, and nothing else. */
  ghost predicate HoldsExactly(members: seq<Member>, entries: Entries) {
    && (forall i, k :: 0 <= i < k < |members| ==> members[i].name != members[k].name)
    && (forall p :: p in entries ==> exists i :: 0 <= i < |members| && Restores(members[i], p, entries[p]))
    && (forall i :: 0 <= i < |members| && members[i].name != MANIFEST_NAME ==>
          exists p :: p in entries && Restores(members[i], p, entries[p]))
  }

  /** The order lists every entry once. */
  ghost predicate Enumerates(order: seq<string>, entries: Entries) {
    && (forall p :: p in order <==> p in entries)
    && (forall i, k :: 0 <= i < k < |order| ==> order[i] != order[k])
  }

  /** Walked paths do not end in a slash. */
  predicate PlainPaths(entries: Entries) {
    forall p :: p in entries ==> p == "" || p[|p| - 1] != '/'
  }

  lemma NamesDiffer(a: ExportEntry, b: ExportEntry)
    requires a.path == "" || a.path[|a.path| - 1] != '/'
    requires b.path == "" || b.path[|b.path| - 1] != '/'
    requires a.path != "" && b.path != "" && a.path != b.path
    ensures MemberName(a) != MemberName(b)
  {
    var x, y := MemberName(a), MemberName(b);
    assert x[6..6 + |a.path|] == a.path && y[6..6 + |b.path|] == b.path;
    assert a.listed.directory != b.listed.directory ==> x[|x| - 1] != y[|y| - 1];
  }

  lemma NameIsNotManifest(e: ExportEntry)
    ensures MemberName(e) != MANIFEST_NAME
  {
    assert MemberName(e)[0] == '.';
  }

  lemma {:induction false} ExpectedEntry(listing: seq<ExportEntry>, i: nat)
    requires i < |listing|
    requires forall j, k :: 0 <= j < k < |listing| ==> MemberName(listing[j]) != MemberName(listing[k])
    ensures MemberName(listing[i]) in Expected(listing) && Expected(listing)[MemberName(listing[i])] == listing[i].listed
  {
    hide MemberName;
    if i < |listing| - 1 {
      ExpectedEntry(listing[..|listing| - 1], i);
    }
  }

  lemma {:induction false} ExpectedComesFrom(listing: seq<ExportEntry>, n: string) returns (i: nat)
    requires n in Expected(listing)
    ensures i < |listing| && MemberName(listing[i]) == n && Expected(listing)[n] == listing[i].listed
  {
    hide MemberName;
    if n == MemberName(listing[|listing| - 1]) {
      i := |listing| - 1;
    } else {
      i := ExpectedComesFrom(listing[..|listing| - 1], n);
    }
  }

  lemma ListingNamesDiffer(entries: Entries, order: seq<string>)
    requires Enumerates(order, entries) && PlainPaths(entries) && "" !in entries
    ensures forall j, k :: 0 <= j < k < |order| ==> MemberName(ListingIn(entries, order)[j]) != MemberName(ListingIn(entries, order)[k])
  {
    var listing := ListingIn(entries, order);
    hide MemberName, ListedOf;
    forall j, k | 0 <= j < k < |order|
      ensures MemberName(listing[j]) != MemberName(listing[k])
    {
      assert order[j] in order && order[k] in order;
      NamesDiffer(listing[j], listing[k]);
    }
  }

  /** A member with the right name, mode, kind and hash is the entry: directories carry no content. */
  lemma AgreeingMemberRestores(m: Member, path: string, node: Node)
    requires m.name == MemberName(ExportEntry(path, ListedOf(node))) && Agrees(m, ListedOf(node))
    ensures Restores(m, path, node)
  {
    hide MemberName;
  }

  lemma EntryIsHeld(format: Format, members: seq<Member>, entries: Entries, order: seq<string>, p: string)
    requires Enumerates(order, entries) && PlainPaths(entries) && "" !in entries
    requires Accepted(format, members, ListingIn(entries, order)) && p in entries
    ensures exists i :: 0 <= i < |members| && Restores(members[i], p, entries[p])
  {
    var listing := ListingIn(entries, order);
    ListingNamesDiffer(entries, order);
    hide MemberName, ListedOf, Expected, MemberOf, Agrees, PlainPaths;
    var k :| 0 <= k < |order| && order[k] == p;
    ExpectedEntry(listing, k);
    var n := MemberName(listing[k]);
    var i :| 0 <= i < |members| && members[i].name == n;
    NameIsNotManifest(listing[k]);
    assert MemberFits(format, members[i], listing);
    AgreeingMemberRestores(members[i], p, entries[p]);
  }

  lemma MemberIsEntry(format: Format, members: seq<Member>, entries: Entries, order: seq<string>, i: nat)
    requires Enumerates(order, entries) && Accepted(format, members, ListingIn(entries, order))
    requires i < |members| && members[i].name != MANIFEST_NAME
    ensures exists p :: p in entries && Restores(members[i], p, entries[p])
  {
    var listing := ListingIn(entries, order);
    hide MemberName, ListedOf, Expected, MemberOf, Agrees;
    assert MemberFits(format, members[i], listing);
    var k := ExpectedComesFrom(listing, members[i].name);
    assert order[k] in order;
    AgreeingMemberRestores(members[i], order[k], entries[order[k]]);
  }

  /** An archive accepted against the listing of some entries holds exactly those entries, byte for byte. */
  lemma AcceptedMeansHeld(format: Format, members: seq<Member>, entries: Entries, order: seq<string>)
    requires Enumerates(order, entries) && PlainPaths(entries) && "" !in entries
    requires Accepted(format, members, ListingIn(entries, order))
    ensures HoldsExactly(members, entries)
  {
    hide Enumerates, PlainPaths, ListingIn, MemberFits, Expected, Restores;
    forall p | p in entries
      ensures exists i :: 0 <= i < |members| && Restores(members[i], p, entries[p])
    {
      EntryIsHeld(format, members, entries, order, p);
    }
    forall i | 0 <= i < |members| && members[i].name != MANIFEST_NAME
      ensures exists p :: p in entries && Restores(members[i], p, entries[p])
    {
      MemberIsEntry(format, members, entries, order, i);
    }
  }

  lemma ArchivedMember(format: Format, entries: Entries, order: seq<string>, i: nat)
    requires (forall p :: p in order ==> p in entries) && 1 <= i <= |order|
    ensures |ListingIn(entries, order)| == |order| && |ArchiveIn(format, entries, order)| == |order| + 1
    ensures ListingIn(entries, order)[i - 1] == ExportEntry(order[i - 1], ListedOf(entries[order[i - 1]]))
    ensures ArchiveIn(format, entries, order)[i] == MemberOf(order[i - 1], entries[order[i - 1]])
  {
    hide MemberOf, ListedOf;
  }

  /** A member that fits but for its name, which is its entry's. */
  predicate FitsIfClean(format: Format, m: Member, listing: seq<ExportEntry>, k: nat) {
    && k < |listing| && m.name == MemberName(listing[k]) && m.name != MANIFEST_NAME
    && (MemberFits(format, m, listing) <==> format.clean(m.name))
  }

  lemma EntryIsExpected(entries: Entries, order: seq<string>, k: nat)
    requires Enumerates(order, entries) && PlainPaths(entries) && "" !in entries && k < |order|
    ensures |ListingIn(entries, order)| == |order|
    ensures var listing := ListingIn(entries, order);
      MemberName(listing[k]) in Expected(listing) && Expected(listing)[MemberName(listing[k])] == listing[k].listed
  {
    assert |ListingIn(entries, order)| == |order|;
    hide MemberName, Expected, PlainPaths, Enumerates, ListingIn;
    ListingNamesDiffer(entries, order);
    ExpectedEntry(ListingIn(entries, order), k);
  }

  lemma EnumeratedAreEntries(entries: Entries, order: seq<string>)
    requires Enumerates(order, entries)
    ensures forall p :: p in order ==> p in entries
  {
  }

  lemma ExportMember(format: Format, entries: Entries, order: seq<string>, i: nat)
    requires Enumerates(order, entries) && PlainPaths(entries) && "" !in entries && 1 <= i <= |order|
    ensures |ArchiveIn(format, entries, order)| == |order| + 1
    ensures FitsIfClean(format, ArchiveIn(format, entries, order)[i], ListingIn(entries, order), i - 1)
  {
    hide MemberName, Expected, PlainPaths, Enumerates, Agrees, ArchiveIn, ListingIn, ListedOf, MemberFits, MemberOf;
    EnumeratedAreEntries(entries, order);
    ArchivedMember(format, entries, order, i);
    EntryIsExpected(entries, order, i - 1);
    OwnEntryFits(format, order[i - 1], entries[order[i - 1]], ListingIn(entries, order));
  }

  lemma OwnEntryFits(format: Format, path: string, node: Node, listing: seq<ExportEntry>)
    requires var n := MemberName(ExportEntry(path, ListedOf(node))); n in Expected(listing) && Expected(listing)[n] == ListedOf(node)
    ensures var m := MemberOf(path, node);
      && m.name == MemberName(ExportEntry(path, ListedOf(node))) && m.name != MANIFEST_NAME
      && (MemberFits(format, m, listing) <==> format.clean(m.name))
  {
    hide MemberName, Expected, Agrees, ListedOf;
    NameIsNotManifest(ExportEntry(path, ListedOf(node)));
    OwnEntryAgrees(path, node);
  }

  lemma OwnEntryAgrees(path: string, node: Node)
    ensures Agrees(MemberOf(path, node), ListedOf(node))
  {
    hide MemberName;
  }

  lemma ExportIsComplete(format: Format, entries: Entries, order: seq<string>)
    requires Enumerates(order, entries) && PlainPaths(entries) && "" !in entries
    ensures var members, listing := ArchiveIn(format, entries, order), ListingIn(entries, order);
      && (forall i, k :: 0 <= i < k < |members| ==> members[i].name != members[k].name)
      && (forall n :: n in Expected(listing) ==> exists i :: 0 <= i < |members| && members[i].name == n)
      && (forall i :: 0 <= i < |members| ==> (MemberFits(format, members[i], listing) <==> format.clean(members[i].name)))
      && |members| > 0 && members[0].name == MANIFEST_NAME
  {
    var members, listing := ArchiveIn(format, entries, order), ListingIn(entries, order);
    ListingNamesDiffer(entries, order);
    hide MemberName, Expected, PlainPaths, Enumerates, Agrees, ListedOf;
    forall i | 0 <= i < |members|
      ensures i > 0 ==> members[i].name == MemberName(listing[i - 1]) && members[i].name != MANIFEST_NAME
      ensures MemberFits(format, members[i], listing) <==> format.clean(members[i].name)
    {
      if i > 0 {
        ExportMember(format, entries, order, i);
      }
    }
    forall n | n in Expected(listing)
      ensures exists i :: 0 <= i < |members| && members[i].name == n
    {
      var k := ExpectedComesFrom(listing, n);
      assert members[k + 1].name == n;
    }
  }

  /** The archive made of some entries passes verification exactly when its names are clean. */
  lemma ExportIsAccepted(format: Format, entries: Entries, order: seq<string>)
    requires Enumerates(order, entries) && PlainPaths(entries) && "" !in entries
    ensures var members := ArchiveIn(format, entries, order);
      Accepted(format, members, ListingIn(entries, order)) <==> forall i :: 0 <= i < |members| ==> format.clean(members[i].name)
  {
    assert forall p :: p in order ==> p in entries;
    hide MemberName, Expected, PlainPaths, Enumerates, MemberFits, ArchiveIn, ListingIn;
    ExportIsComplete(format, entries, order);
    var members, listing := ArchiveIn(format, entries, order), ListingIn(entries, order);
    assert Accepted(format, members, listing) <==> forall i :: 0 <= i < |members| ==> MemberFits(format, members[i], listing);
  }

  lemma FrontIsRead(format: Format, listing: seq<ExportEntry>)
    requires GoodFormat(format)
    ensures var manifest := format.manifest(listing);
      && FrontOf(manifest) == manifest[..|FrontOf(manifest)|] && |FrontOf(manifest)| <= |manifest|
      && ReadsBack(format, listing, |FrontOf(manifest)|)
      && (|FrontOf(manifest)| + 1 >= |manifest| <==> |manifest| <= MAX_MANIFEST_BYTES + 1)
  {
  }

  /** A published export verifies by itself later on exactly when its manifest is at most one byte longer than what is read
      back, that byte being the line feed at its end, and its names are valid UTF-8. */
  lemma ExportVerifies(format: Format, entries: Entries, order: seq<string>)
    requires Enumerates(order, entries) && GoodFormat(format)
    requires Accepted(format, ArchiveIn(format, entries, order), ListingIn(entries, order))
    ensures FileVerifies(format, ArchiveIn(format, entries, order))
      <==> |format.manifest(ListingIn(entries, order))| <= MAX_MANIFEST_BYTES + 1 && Legible(ListingIn(entries, order))
  {
    var listing, members := ListingIn(entries, order), ArchiveIn(format, entries, order);
    FrontIsRead(format, listing);
    assert members[0] == Member(MANIFEST_NAME, false, PRIVATE_FILE_MODE, format.manifest(listing));
    hide GoodFormat, ListingIn, ArchiveIn, Enumerates, FrontOf, Legible;
    var r := format.parse(FrontOf(members[0].content));
    if r.Some? && r.value != listing {
      assert !MemberFits(format, members[0], r.value);
    }
  }
}
