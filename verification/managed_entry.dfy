/** The managed-block part of internal/workspace/adapters.go: consumers come and go on one native entry. */
module ManagedEntries {
  import opened Wrappers
  import opened Records
  import opened Sorting
  import opened Blocks
  import opened UTF8
  import opened NativeFiles

  const BRIDGE_BODY := "Read `.uawp/INSTRUCTIONS.md` before UAWP work."

  /** The manifest's record of the entry. */
  datatype Artifact = Artifact(
    id: string, target: string, consumers: seq<string>, created: bool, sha256: Digest, outsideSHA256: Digest)

  datatype Entry = Entry(file: Option<Bytes>, artifact: Option<Artifact>)

  datatype EntryFault = Unreadable(reason: ReadFault) | Conflict | InvalidBlock(fault: BlockFault) | EntryUnavailable

  function SpecOf(a: Artifact): BlockSpec {
    BlockSpec(a.id, a.target, a.consumers, BRIDGE_BODY)
  }

  function ContentOf(file: Option<Bytes>): Bytes {
    if file.None? then [] else file.value
  }

  function Without(items: seq<string>, id: string): seq<string> {
    if items == [] then []
    else if items[0] == id then Without(items[1..], id)
    else [items[0]] + Without(items[1..], id)
  }

  /** The entry with this content, recorded with its hashes. */
  function Managing(inserted: (Bytes, Digest), a: Artifact): Entry {
    Entry(Some(inserted.0), Some(a.(sha256 := HashBytes(inserted.0), outsideSHA256 := inserted.1)))
  }

  /** The entry after a consumer was added; adding a registered one only checks its block. */
  function Added(e: Entry, id: string, target: string, consumer: string): Result<Entry, EntryFault> {
    var before := ContentOf(e.file);
    if !Readable(before) then Err(Unreadable(ReadFaultOf(before).value))
    else if e.artifact.None? then
      var a := Artifact(id, target, [consumer], e.file.None? || before == [], NoDigest, NoDigest);
      var inserted := Upsert(before, SpecOf(a));
      if inserted.Err? then Err(InvalidBlock(inserted.error))
      else Ok(Managing(inserted.value, a))
    else
      var prior := e.artifact.value;
      if prior.target != target then Err(Conflict)
      else if consumer in prior.consumers && e.file.None? then Err(EntryUnavailable)
      else
        var removed := Remove(before, SpecOf(prior));
        if removed.Err? then Err(InvalidBlock(removed.error))
        else if consumer in prior.consumers then Ok(e)
        else
          var a := prior.(id := id, consumers := Sort(prior.consumers + [consumer], LexLess));
          var inserted := Upsert(removed.value, SpecOf(a));
          if inserted.Err? then Err(InvalidBlock(inserted.error))
          else Ok(Managing(inserted.value, a))
  }

  /** The content without this consumer, and the outside hash when others remain. */
  function Detachment(before: Bytes, prior: Artifact, remaining: seq<string>): Result<(Bytes, Digest), EntryFault> {
    if remaining == [] && prior.created && HashBytes(before) == prior.sha256 then Ok(([], prior.outsideSHA256))
    else
      var removed := Remove(before, SpecOf(prior));
      if removed.Err? then Err(InvalidBlock(removed.error))
      else if remaining == [] then Ok((removed.value, prior.outsideSHA256))
      else
        var inserted := Upsert(removed.value, SpecOf(prior.(consumers := remaining)));
        if inserted.Err? then Err(InvalidBlock(inserted.error)) else Ok(inserted.value)
  }

  /** The entry after detachConsumer; nothing happens for a consumer that is not registered. */
  function Detached(e: Entry, consumer: string): Result<Entry, EntryFault> {
    if e.artifact.None? || consumer !in e.artifact.value.consumers then Ok(e)
    else if !Readable(ContentOf(e.file)) then Err(Unreadable(ReadFaultOf(ContentOf(e.file)).value))
    else
      var prior := e.artifact.value;
      var remaining := Without(prior.consumers, consumer);
      var r := Detachment(ContentOf(e.file), prior, remaining);
      if r.Err? then Err(r.error)
      else
        var (content, outside) := r.value;
        var file := if content == [] && prior.created then None else if e.file.None? && content == [] then None else Some(content);
        Ok(Entry(file, if remaining == [] then None
                       else Some(prior.(consumers := remaining, sha256 := HashBytes(content), outsideSHA256 := outside))))
  }

  /** The entry and its record as the planners change them. */
  class NativeEntry {
    const id: string
    const target: string
    var file: Option<Bytes>
    var artifact: Option<Artifact>

    constructor (id: string, target: string, file: Option<Bytes>)
      ensures this.id == id && this.target == target && State() == Entry(file, None)
    {
      this.id, this.target, this.file, this.artifact := id, target, file, None;
    }

    function State(): Entry
      reads this
    {
      Entry(file, artifact)
    }

    method Add(consumer: string) returns (fault: Option<EntryFault>)
      modifies this
      ensures var r := Added(old(State()), id, target, consumer);
        && (fault == if r.Err? then Some(r.error) else None)
        && State() == if r.Ok? then r.value else old(State())
    {
      hide Upsert, Remove, ReadFaultOf;
      var content := ContentOf(file);
      var unreadable := ReadFaultOf(content);
      if unreadable.Some? {
        return Some(Unreadable(unreadable.value));
      }
      var a := Artifact(id, target, [consumer], file.None? || content == [], NoDigest, NoDigest);
      if artifact.Some? {
        if artifact.value.target != target {
          return Some(Conflict);
        }
        if consumer in artifact.value.consumers && file.None? {
          return Some(EntryUnavailable);
        }
        var removed := Remove(content, SpecOf(artifact.value));
        if removed.Err? {
          return Some(InvalidBlock(removed.error));
        }
        if consumer in artifact.value.consumers {
          return None;
        }
        content := removed.value;
        a := artifact.value.(id := id, consumers := Sort(artifact.value.consumers + [consumer], LexLess));
      }
      var inserted := Upsert(content, SpecOf(a));
      if inserted.Err? {
        return Some(InvalidBlock(inserted.error));
      }
      file := Some(inserted.value.0);
      artifact := Some(a.(sha256 := HashBytes(inserted.value.0), outsideSHA256 := inserted.value.1));
      return None;
    }

    /** detachConsumer. */
    method Detach(consumer: string) returns (fault: Option<EntryFault>)
      modifies this
      ensures var r := Detached(old(State()), consumer);
        && (fault == if r.Err? then Some(r.error) else None)
        && State() == if r.Ok? then r.value else old(State())
    {
      hide Upsert, Remove, ReadFaultOf, Without, SpecOf;
      if artifact.None? || consumer !in artifact.value.consumers {
        return None;
      }
      var art := artifact.value;
      var remaining := RemoveConsumer(art.consumers, consumer);
      var before := ContentOf(file);
      var unreadable := ReadFaultOf(before);
      if unreadable.Some? {
        return Some(Unreadable(unreadable.value));
      }
      var content, outside := before, art.outsideSHA256;
      if |remaining| == 0 && art.created && HashBytes(before) == art.sha256 {
        content := [];
      } else {
        var removed := Remove(before, SpecOf(art));
        if removed.Err? {
          return Some(InvalidBlock(removed.error));
        }
        content := removed.value;
      }
      if |remaining| > 0 {
        var inserted := Upsert(content, SpecOf(art.(consumers := remaining)));
        if inserted.Err? {
          return Some(InvalidBlock(inserted.error));
        }
        content, outside := inserted.value.0, inserted.value.1;
        artifact := Some(art.(consumers := remaining, sha256 := HashBytes(content), outsideSHA256 := outside));
      } else {
        artifact := None;
      }
      if |content| == 0 && art.created {
        file := None;
      } else if content != before {
        file := Some(content);
      }
      return None;
    }
  }

  method RemoveConsumer(items: seq<string>, id: string) returns (r: seq<string>)
    ensures r == Without(items, id)
  {
    r := [];
    assert items[0..] == items;
    for i := 0 to |items|
      invariant Without(items, id) == r + Without(items[i..], id)
    {
      assert items[i..][1..] == items[i + 1..];
      if items[i] != id {
        r := r + [items[i]];
      }
    }
  }

  // ----- Any sequence of consumers -----

  datatype Change = Add(consumer: string) | Drop(consumer: string)

  function Changed(e: Entry, id: string, target: string, c: Change): Result<Entry, EntryFault> {
    match c
    case Add(consumer) => Added(e, id, target, consumer)
    case Drop(consumer) => Detached(e, consumer)
  }

  function AllChanged(e: Entry, id: string, target: string, changes: seq<Change>): Result<Entry, EntryFault>
    decreases |changes|
  {
    if changes == [] then Ok(e)
    else
      var next := Changed(e, id, target, changes[0]);
      if next.Err? then next else AllChanged(next.value, id, target, changes[1..])
  }

  function After(who: set<string>, c: Change): set<string> {
    match c
    case Add(consumer) => who + {consumer}
    case Drop(consumer) => who - {consumer}
  }

  /** Who is registered after the changes. */
  function Registered(who: set<string>, changes: seq<Change>): set<string>
    decreases |changes|
  {
    if changes == [] then who else Registered(After(who, changes[0]), changes[1..])
  }

  /** The native entry before any consumer: absent, or a file with content, marker-free, with a stable line break. */
  predicate FitEntry(o: Option<Bytes>) {
    MarkerFree(ContentOf(o)) && StableNewLine(ContentOf(o)) && (o.Some? ==> o.value != [])
  }

  ghost function Enumerated(who: set<string>): (items: seq<string>)
    ensures multiset(items) == multiset(who)
  {
    if who == {} then []
    else
      var c :| c in who;
      assert multiset(who) == multiset{c} + multiset(who - {c});
      [c] + Enumerated(who - {c})
  }

  /** The consumers, each once, in order. */
  ghost function Listed(who: set<string>): seq<string> {
    Sort(Enumerated(who), LexLess)
  }

  /** The managed content over o with these consumers. */
  ghost function ManagedBy(o: Option<Bytes>, id: string, target: string, who: set<string>): Bytes {
    Managed(ContentOf(o), BlockSpec(id, target, Listed(who), BRIDGE_BODY))
  }

  /** The entry with exactly these consumers over the original o: with none it is o itself; otherwise it is o, a line
      break and one block that names them, and the recorded outside hash is o's. */
  ghost function EntryFor(o: Option<Bytes>, id: string, target: string, who: set<string>): Entry {
    if who == {} then Entry(o, None)
    else
      var content := ManagedBy(o, id, target, who);
      Entry(Some(content),
            Some(Artifact(id, target, Listed(who), o.None?, HashBytes(content), HashBytes(ContentOf(o)))))
  }

  /** Whether the planner looks at the file: dropping a consumer that is not registered does not. */
  predicate Reads(who: set<string>, c: Change) {
    c.Add? || c.consumer in who
  }

  /** Every file the changes read on their way can be read. The file the last one leaves is not among them. */
  ghost predicate AllReadable(o: Option<Bytes>, id: string, target: string, who: set<string>, changes: seq<Change>)
    decreases |changes|
  {
    changes != [] ==>
      && (Reads(who, changes[0]) ==> Readable(ContentOf(EntryFor(o, id, target, who).file)))
      && AllReadable(o, id, target, After(who, changes[0]), changes[1..])
  }

  predicate PlainNames(id: string, target: string, who: set<string>) {
    PlainText(id) && PlainText(target) && forall c :: c in who ==> PlainText(c)
  }

  lemma LexOrders()
    ensures Ordering(LexLess)
  {
    forall a, b | LexLess(a, b)
      ensures !LexLess(b, a)
    {
      LexAsymmetric(a, b);
    }
    forall a, b, c | !LexLess(b, a) && !LexLess(c, b)
      ensures !LexLess(c, a)
    {
      LexTransitive(a, b, c);
    }
  }

  lemma LexIsTotal()
    ensures forall a, b :: !LexLess(a, b) && !LexLess(b, a) ==> a == b
  {
    forall a, b | !LexLess(a, b) && !LexLess(b, a)
      ensures a == b
    {
      LexTotal(a, b);
    }
  }

  /** Who is listed, and that nothing else is a sorted list of them. */
  lemma ListedFacts(who: set<string>)
    ensures forall c :: c in Listed(who) <==> c in who
    ensures Sorted(Listed(who), LexLess) && multiset(Listed(who)) == multiset(who)
  {
    LexOrders();
    SortSorts(Enumerated(who), LexLess);
    forall c
      ensures c in Listed(who) <==> c in who
    {
      assert c in Listed(who) <==> c in multiset(Listed(who));
    }
  }

  lemma ListedIsOnly(items: seq<string>, who: set<string>)
    requires Sorted(items, LexLess) && multiset(items) == multiset(who)
    ensures items == Listed(who)
  {
    LexOrders();
    LexIsTotal();
    ListedFacts(who);
    SortedUnique(items, Listed(who), LexLess);
  }

  lemma ListedOne(consumer: string)
    ensures Listed({consumer}) == [consumer]
  {
    assert multiset([consumer]) == multiset({consumer});
    ListedIsOnly([consumer], {consumer});
  }

  lemma ListedWith(who: set<string>, consumer: string)
    requires consumer !in who
    ensures Sort(Listed(who) + [consumer], LexLess) == Listed(who + {consumer})
  {
    hide Listed, LexLess, Sorted;
    var r := Sort(Listed(who) + [consumer], LexLess);
    hide Sort;
    ListedFacts(who);
    LexOrders();
    SortSorts(Listed(who) + [consumer], LexLess);
    assert multiset(who + {consumer}) == multiset(who) + multiset{consumer};
    ListedIsOnly(r, who + {consumer});
  }

  lemma ListedWithout(who: set<string>, consumer: string)
    ensures Without(Listed(who), consumer) == Listed(who - {consumer})
  {
    ListedFacts(who);
    WithoutCounts(Listed(who), consumer);
    WithoutIsSorted(Listed(who), consumer);
    assert multiset(who)[consumer := 0] == multiset(who - {consumer});
    ListedIsOnly(Without(Listed(who), consumer), who - {consumer});
  }

  lemma {:induction false} WithoutCounts(items: seq<string>, id: string)
    ensures multiset(Without(items, id)) == multiset(items)[id := 0]
    ensures forall c :: c in Without(items, id) ==> c in items
  {
    if items != [] {
      WithoutCounts(items[1..], id);
      assert items == [items[0]] + items[1..];
    }
  }

  lemma {:induction false} WithoutIsSorted(items: seq<string>, id: string)
    requires Sorted(items, LexLess)
    ensures Sorted(Without(items, id), LexLess)
  {
    hide LexLess;
    if items != [] {
      var rest := Without(items[1..], id);
      WithoutIsSorted(items[1..], id);
      WithoutCounts(items[1..], id);
      if items[0] != id {
        forall k | 0 <= k < |rest|
          ensures !LexLess(rest[k], items[0])
        {
          assert rest[k] in items[1..];
        }
      }
    }
  }

  lemma PlainListed(id: string, target: string, who: set<string>)
    requires PlainNames(id, target, who)
    ensures PlainSpec(BlockSpec(id, target, Listed(who), BRIDGE_BODY))
  {
    ListedFacts(who);
    BodyIsPlain();
  }

  lemma BodyIsPlain()
    ensures PlainText(BRIDGE_BODY)
  {
    FirstWordsArePlain();
    LastWordsArePlain();
    hide PlainText;
    PlainJoin("Read `.uawp/", "INSTRUCTIONS");
    PlainJoin(".md` before ", "UAWP work.");
    PlainJoin("Read `.uawp/" + "INSTRUCTIONS", ".md` before " + "UAWP work.");
    assert BRIDGE_BODY == ("Read `.uawp/" + "INSTRUCTIONS") + (".md` before " + "UAWP work.");
  }

  lemma PlainJoin(a: string, b: string)
    requires PlainText(a) && PlainText(b)
    ensures PlainText(a + b)
  {
  }

  lemma FirstWordsArePlain()
    ensures PlainText("Read `.uawp/") && PlainText("INSTRUCTIONS")
  {
  }

  lemma LastWordsArePlain()
    ensures PlainText(".md` before ") && PlainText("UAWP work.")
  {
  }

  /** What a block removed from the managed content leaves. */
  lemma ManagedIsRemoved(o: Option<Bytes>, id: string, target: string, who: set<string>)
    requires FitEntry(o) && PlainNames(id, target, who)
    ensures Remove(ManagedBy(o, id, target, who), BlockSpec(id, target, Listed(who), BRIDGE_BODY)) == Ok(ContentOf(o))
  {
    hide MarkerFree, StableNewLine, Managed, PlainSpec, PlainNames, Remove;
    PlainListed(id, target, who);
    RemoveUndoesUpsert(ContentOf(o), BlockSpec(id, target, Listed(who), BRIDGE_BODY));
  }

  /** What a block put into the original makes. */
  lemma ManagedIsInserted(o: Option<Bytes>, id: string, target: string, who: set<string>)
    requires FitEntry(o)
    ensures Upsert(ContentOf(o), BlockSpec(id, target, Listed(who), BRIDGE_BODY))
      == Ok((ManagedBy(o, id, target, who), HashBytes(ContentOf(o))))
    ensures ManagedBy(o, id, target, who) != []
  {
    hide MarkerFree, StableNewLine, Managed, Upsert;
    UpsertInserts(ContentOf(o), BlockSpec(id, target, Listed(who), BRIDGE_BODY));
    ManagedIsNotEmpty(ContentOf(o), BlockSpec(id, target, Listed(who), BRIDGE_BODY));
  }

  /** One change: refused exactly when it reads a file that cannot be read. */
  ghost predicate Takes(o: Option<Bytes>, id: string, target: string, who: set<string>, c: Change) {
    Changed(EntryFor(o, id, target, who), id, target, c)
      == if Reads(who, c) && !Readable(ContentOf(EntryFor(o, id, target, who).file))
         then Err(Unreadable(ReadFaultOf(ContentOf(EntryFor(o, id, target, who).file)).value))
         else Ok(EntryFor(o, id, target, After(who, c)))
  }

  lemma AddTakes(o: Option<Bytes>, id: string, target: string, who: set<string>, consumer: string)
    requires FitEntry(o) && PlainNames(id, target, who)
    ensures Takes(o, id, target, who, Add(consumer))
  {
    hide Upsert, Remove, FitEntry, ManagedBy, PlainNames, ReadFaultOf, Sort, Listed;
    ListedFacts(who);
    if consumer in who {
      assert who + {consumer} == who;
      ManagedIsRemoved(o, id, target, who);
    } else if who == {} {
      assert {} + {consumer} == {consumer};
      ListedOne(consumer);
      ManagedIsInserted(o, id, target, {consumer});
      FitIsNotEmpty(o);
    } else {
      ManagedIsRemoved(o, id, target, who);
      ListedWith(who, consumer);
      ManagedIsInserted(o, id, target, who + {consumer});
    }
  }

  lemma FitIsNotEmpty(o: Option<Bytes>)
    requires FitEntry(o)
    ensures o.None? || ContentOf(o) != []
  {
  }

  lemma DropTakes(o: Option<Bytes>, id: string, target: string, who: set<string>, consumer: string)
    requires FitEntry(o) && PlainNames(id, target, who)
    ensures Takes(o, id, target, who, Drop(consumer))
  {
    hide Upsert, Remove, FitEntry, ManagedBy, PlainNames, ReadFaultOf, Sort, Listed, Without;
    ListedFacts(who);
    if consumer !in who {
      assert who - {consumer} == who;
    } else {
      ManagedIsRemoved(o, id, target, who);
      ManagedIsInserted(o, id, target, who);
      ListedWithout(who, consumer);
      ListedFacts(who - {consumer});
      FitIsNotEmpty(o);
      if who - {consumer} == {} {
        NoneListed();
      } else {
        var c :| c in who - {consumer};
        assert c in Listed(who - {consumer});
        ManagedIsInserted(o, id, target, who - {consumer});
      }
    }
  }

  lemma NoneListed()
    ensures Listed({}) == []
  {
  }

  lemma ManagedIsNotEmpty(o: Bytes, spec: BlockSpec)
    ensures Managed(o, spec) != []
  {
  }

  /** Any sequence of consumers added and dropped, in any order and repetition, goes through exactly when every file it
      reads on its way can be read, and then the file is the original and one block with exactly the registered consumers,
      the outside hash stays the original's, and when the last consumer goes the original is back, byte for byte, or the
      file is gone if there was none. */
  lemma {:induction false} ConsumersComeAndGo(o: Option<Bytes>, id: string, target: string, who: set<string>, changes: seq<Change>)
    requires FitEntry(o) && PlainNames(id, target, who) && forall c :: c in changes ==> PlainText(c.consumer)
    ensures var r := AllChanged(EntryFor(o, id, target, who), id, target, changes);
      if AllReadable(o, id, target, who, changes) then r == Ok(EntryFor(o, id, target, Registered(who, changes)))
      else r.Err? && r.error.Unreadable?
    decreases |changes|
  {
    hide Added, Detached, FitEntry, PlainText, EntryFor, ReadFaultOf;
    if changes != [] {
      var c := changes[0];
      match c {
        case Add(consumer) => AddTakes(o, id, target, who, consumer);
        case Drop(consumer) => DropTakes(o, id, target, who, consumer);
      }
      assert c in changes && forall d :: d in changes[1..] ==> d in changes;
      ConsumersComeAndGo(o, id, target, After(who, c), changes[1..]);
    }
  }

  // ----- Which managed files can be read -----

  predicate TextNames(id: string, target: string, who: set<string>) {
    IsText(id) && IsText(target) && forall c :: c in who ==> IsText(c)
  }

  lemma {:induction false} JoinedIsText(parts: seq<string>)
    requires forall p :: p in parts ==> IsText(p)
    ensures IsText(Joined(parts))
  {
    if parts != [] {
      assert parts[0] in parts && forall p :: p in parts[1..] ==> p in parts;
      JoinedIsText(parts[1..]);
      hide IsText;
      ASCIIIsText(",");
      if |parts| > 1 {
        TextJoins(parts[0], ",");
        TextJoins(parts[0] + ",", Joined(parts[1..]));
      }
    } else {
      ASCIIIsText("");
    }
  }

  lemma SortedIsText(parts: seq<string>)
    requires forall p :: p in parts ==> IsText(p)
    ensures IsText(Joined(Sort(parts, LexLess)))
  {
    hide IsText, Sort;
    var sorted := Sort(parts, LexLess);
    forall p | p in sorted
      ensures IsText(p)
    {
      assert p in multiset(sorted);
      assert p in multiset(parts);
    }
    JoinedIsText(sorted);
  }

  lemma FirstWordsAreText()
    ensures IsText("Read `.uawp/") && IsText("INSTRUCTIONS")
  {
    hide IsText;
    ASCIIIsText("Read `.uawp/");
    ASCIIIsText("INSTRUCTIONS");
  }

  lemma LastWordsAreText()
    ensures IsText(".md` before ") && IsText("UAWP work.")
  {
    hide IsText;
    ASCIIIsText(".md` before ");
    ASCIIIsText("UAWP work.");
  }

  lemma BodyIsText()
    ensures IsText(BRIDGE_BODY)
  {
    hide IsText;
    FirstWordsAreText();
    LastWordsAreText();
    TextJoins("Read `.uawp/", "INSTRUCTIONS");
    TextJoins(".md` before ", "UAWP work.");
    TextJoins("Read `.uawp/" + "INSTRUCTIONS", ".md` before " + "UAWP work.");
    assert BRIDGE_BODY == ("Read `.uawp/" + "INSTRUCTIONS") + (".md` before " + "UAWP work.");
  }

  lemma OuterLabelsAreText()
    ensures IsText(" artifact=") && IsText(" -->")
  {
    hide IsText;
    ASCIIIsText(" artifact=");
    ASCIIIsText(" -->");
  }

  lemma InnerLabelsAreText()
    ensures IsText(" schema=1 target=") && IsText(" consumers=")
  {
    hide IsText;
    ASCIIIsText(" schema=1 target=");
    ASCIIIsText(" consumers=");
  }

  lemma LineBreaksAreText()
    ensures IsText(LF) && IsText(CRLF)
  {
    hide IsText;
    ASCIIIsText(LF);
    ASCIIIsText(CRLF);
  }

  lemma MarkersAreText()
    ensures IsText(BEGIN) && IsText(END)
  {
    ASCIIIsText("<!-- UAWP:");
    ASCIIIsText("BEGIN");
    ASCIIIsText("END");
    hide IsText;
    TextJoins("<!-- UAWP:", "BEGIN");
    TextJoins("<!-- UAWP:", "END");
    assert BEGIN == "<!-- UAWP:" + "BEGIN" && END == "<!-- UAWP:" + "END";
  }

  lemma HeadIsText(artifactID: string, target: string, consumers: string, body: string, nl: Bytes)
    requires IsText(artifactID) && IsText(target) && IsText(consumers) && IsText(body) && IsText(nl)
    ensures IsText(" artifact=" + artifactID + " schema=1 target=" + target + " consumers=" + consumers + " -->" + nl + body + nl)
  {
    hide IsText;
    OuterLabelsAreText();
    InnerLabelsAreText();
    var s0 := " artifact=" + artifactID;
    TextJoins(" artifact=", artifactID);
    TextJoins(s0, " schema=1 target=");
    var s1 := s0 + " schema=1 target=" + target;
    TextJoins(s0 + " schema=1 target=", target);
    TextJoins(s1, " consumers=");
    var s2 := s1 + " consumers=" + consumers;
    TextJoins(s1 + " consumers=", consumers);
    TextJoins(s2, " -->");
    var s3 := s2 + " -->" + nl;
    TextJoins(s2 + " -->", nl);
    TextJoins(s3, body);
    TextJoins(s3 + body, nl);
  }

  lemma BlockIsText(spec: BlockSpec, nl: Bytes)
    requires IsText(spec.artifactID) && IsText(spec.target) && IsText(spec.body) && forall c :: c in spec.consumers ==> IsText(c)
    requires nl == LF || nl == CRLF
    ensures IsText(Block(spec, nl)) && Block(spec, nl)[0] == '<'
  {
    hide IsText, Sort, Joined;
    OuterLabelsAreText();
    LineBreaksAreText();
    MarkersAreText();
    SortedIsText(spec.consumers);
    HeadIsText(spec.artifactID, spec.target, Joined(Sort(spec.consumers, LexLess)), spec.body, nl);
    TextJoins(" artifact=", spec.artifactID);
    TextJoins(" artifact=" + spec.artifactID, " -->");
    hide Head, Tail;
    TextJoins(BEGIN, Head(spec, nl));
    TextJoins(BEGIN + Head(spec, nl), END);
    TextJoins(BEGIN + Head(spec, nl) + END, Tail(spec));
  }

  /** A managed file can be read exactly when the original is text and the whole is not over 1 MiB. */
  lemma ManagedIsReadable(o: Option<Bytes>, id: string, target: string, who: set<string>)
    requires TextNames(id, target, who)
    ensures Readable(ManagedBy(o, id, target, who))
      <==> IsText(ContentOf(o)) && |ManagedBy(o, id, target, who)| <= MAX_NATIVE_BYTES
  {
    var base, spec := ContentOf(o), BlockSpec(id, target, Listed(who), BRIDGE_BODY);
    var nl := NewLine(base);
    ListedFacts(who);
    hide Block, NewLine, Listed, ValidUTF8;
    BodyIsText();
    LineBreaks(base);
    BlockIsText(spec, nl);
    LineBreaksAreText();
    if base == [] {
      ASCIIIsText(base);
      assert ManagedBy(o, id, target, who) == Block(spec, nl);
    } else {
      TextJoins(nl, Block(spec, nl));
      TextBefore(base, nl + Block(spec, nl));
      assert ManagedBy(o, id, target, who) == base + (nl + Block(spec, nl));
    }
  }

  // ----- Entries that cannot be managed back -----

  /** An original that fits and whose managed form does not: the consumer is added, and from then on every change that
      looks at the file is refused. */
  lemma {:induction false} LargeEntryIsStuck(o: Option<Bytes>, id: string, target: string, consumer: string, changes: seq<Change>)
    requires FitEntry(o) && PlainNames(id, target, {consumer}) && forall c :: c in changes ==> PlainText(c.consumer)
    requires Readable(ContentOf(o)) && |ManagedBy(o, id, target, {consumer})| > MAX_NATIVE_BYTES
    ensures AllChanged(Entry(o, None), id, target, [Add(consumer)] + changes)
      == if forall c :: c in changes ==> !Reads({consumer}, c) then Ok(EntryFor(o, id, target, {consumer}))
         else Err(Unreadable(TooLarge))
  {
    hide Added, Detached, FitEntry, PlainText, ManagedBy;
    AddTakes(o, id, target, {}, consumer);
    assert {} + {consumer} == {consumer};
    assert ([Add(consumer)] + changes)[1..] == changes;
    StuckStays(o, id, target, consumer, changes);
  }

  lemma StuckStep(o: Option<Bytes>, id: string, target: string, consumer: string, c: Change)
    requires FitEntry(o) && PlainNames(id, target, {consumer}) && PlainText(c.consumer)
    requires |ManagedBy(o, id, target, {consumer})| > MAX_NATIVE_BYTES
    ensures Changed(EntryFor(o, id, target, {consumer}), id, target, c)
      == if Reads({consumer}, c) then Err(Unreadable(TooLarge)) else Ok(EntryFor(o, id, target, {consumer}))
  {
    hide Added, Detached, FitEntry, PlainText, ManagedBy;
    match c {
      case Add(added) => AddTakes(o, id, target, {consumer}, added);
      case Drop(dropped) =>
        DropTakes(o, id, target, {consumer}, dropped);
        assert dropped != consumer ==> {consumer} - {dropped} == {consumer};
    }
  }

  lemma {:induction false} StuckStays(o: Option<Bytes>, id: string, target: string, consumer: string, changes: seq<Change>)
    requires FitEntry(o) && PlainNames(id, target, {consumer}) && forall c :: c in changes ==> PlainText(c.consumer)
    requires |ManagedBy(o, id, target, {consumer})| > MAX_NATIVE_BYTES
    ensures AllChanged(EntryFor(o, id, target, {consumer}), id, target, changes)
      == if forall c :: c in changes ==> !Reads({consumer}, c) then Ok(EntryFor(o, id, target, {consumer}))
         else Err(Unreadable(TooLarge))
  {
    hide Changed, FitEntry, PlainText, ManagedBy, EntryFor, Reads;
    if changes != [] {
      var c := changes[0];
      assert c in changes && (forall d :: d in changes[1..] ==> d in changes) && changes == [c] + changes[1..];
      StuckStep(o, id, target, consumer, c);
      StuckStays(o, id, target, consumer, changes[1..]);
    }
  }

  /** A megabyte of plain text. */
  function Megabyte(): (o: Bytes)
    ensures |o| == MAX_NATIVE_BYTES && o != [] && forall c :: c in o ==> c == 'x'
  {
    seq(MAX_NATIVE_BYTES, _ => 'x')
  }

  lemma MegabyteFits()
    ensures FitEntry(Some(Megabyte())) && Readable(Megabyte())
  {
    var o := Megabyte();
    hide Megabyte;
    assert o[|o| - 1] in o;
    BracketFree(o, BEGIN);
    BracketFree(o, END);
    ASCIIIsText(o);
  }

  lemma ManagedIsLonger(o: Bytes, spec: BlockSpec)
    ensures |Managed(o, spec)| > |o|
  {
  }

  /** It is such an original: no changes behind the first ever bring it back. */
  lemma StuckEntryExists(id: string, target: string, consumer: string, changes: seq<Change>)
    requires PlainNames(id, target, {consumer}) && forall c :: c in changes ==> PlainText(c.consumer)
    ensures var o := Entry(Some(Megabyte()), None);
      && Added(o, id, target, consumer).Ok?
      && AllChanged(o, id, target, [Add(consumer)] + changes) != Ok(o)
  {
    hide Managed, FitEntry, AllChanged, Added, Listed, PlainText, Megabyte, ReadFaultOf;
    var o := Megabyte();
    MegabyteFits();
    ManagedIsLonger(o, BlockSpec(id, target, Listed({consumer}), BRIDGE_BODY));
    AddTakes(Some(o), id, target, {}, consumer);
    LargeEntryIsStuck(Some(o), id, target, consumer, changes);
  }

  lemma TwoChanges(e: Entry, e1: Entry, id: string, target: string, first: Change, second: Change)
    requires Changed(e, id, target, first) == Ok(e1)
    ensures AllChanged(e, id, target, [first, second]) == Changed(e1, id, target, second)
  {
    hide Changed;
    assert [first, second][1..] == [second] && [second][1..] == [];
    assert AllChanged(e1, id, target, [second]) == Changed(e1, id, target, second);
  }

  lemma EmptyIsCreated(id: string, target: string, consumer: string)
    ensures Added(Entry(Some([]), None), id, target, consumer) == Added(Entry(None, None), id, target, consumer)
    ensures FitEntry(None) && Readable([])
  {
    hide Upsert;
    ASCIIIsText([]);
  }

  /** The one readable entry that does not come back: an empty file is taken for a created one, and its last consumer
      deletes it. */
  lemma EmptyFileIsDeleted(id: string, target: string, consumer: string)
    requires PlainNames(id, target, {consumer})
    ensures var content := ManagedBy(Some([]), id, target, {consumer});
      AllChanged(Entry(Some([]), None), id, target, [Add(consumer), Drop(consumer)])
        == if Readable(content) then Ok(Entry(None, None)) else Err(Unreadable(ReadFaultOf(content).value))
  {
    hide Added, Detached, AllChanged, PlainText, Managed, Listed, ReadFaultOf, FitEntry;
    EmptyIsCreated(id, target, consumer);
    AddTakes(None, id, target, {}, consumer);
    DropTakes(None, id, target, {consumer}, consumer);
    assert {} + {consumer} == {consumer} && {consumer} - {consumer} == {};
    TwoChanges(Entry(Some([]), None), EntryFor(None, id, target, {consumer}), id, target, Add(consumer), Drop(consumer));
  }
}
