/** Purge, abort and cleanup, cut off anywhere: the workspace state is always somewhere whole. */
module PurgeProofs {
  import opened Wrappers
  import opened Records
  import opened Planning
  import opened Engine
  import opened Invariants
  import opened ApplyProofs
  import opened Lifecycle
  import opened RecoveryOutcomes
  import opened Runs
  import opened Archives
  import opened Purges

  // ----- Snapshots and fingerprints -----

  lemma ListedDetermines(a: Node, b: Node)
    requires ListedOf(a) == ListedOf(b)
    ensures a == b
  {
  }

  /** Equal fingerprints mean equal entries, byte for byte. */
  lemma FingerprintDetermines(a: Entries, b: Entries)
    requires ListingMap(a) == ListingMap(b)
    ensures a == b
  {
    hide ListedOf;
    forall p
      ensures p in a <==> p in b
      ensures p in a ==> a[p] == b[p]
    {
      assert p in ListingMap(a) <==> p in ListingMap(b);
      if p in a {
        assert ListingMap(a)[p] == ListingMap(b)[p];
        ListedDetermines(a[p], b[p]);
      }
    }
  }

  /** What an entry under .uawp is. */
  lemma InsideEntry(tools: Tools, files: Files, q: string)
    ensures q in InsideFiles(tools, files) <==> INSIDE + q in files && Listable(tools, INSIDE + q)
    ensures q in InsideFiles(tools, files) ==> InsideFiles(tools, files)[q] == files[INSIDE + q]
  {
    assert (INSIDE + q)[|INSIDE|..] == q;
    if q in InsideFiles(tools, files) {
      var p :| p in files && Listable(tools, p) && |p| >= |INSIDE| && p[|INSIDE|..] == q;
      assert p == INSIDE + q;
    }
  }

  lemma ListableIsInside(tools: Tools, p: string)
    requires Listable(tools, p)
    ensures INSIDE <= p && |p| > |INSIDE| && p != PURGE_MARKER && !tools.isRecord(p[|INSIDE|..])
  {
  }

  /** Same listable entries, same inside files. */
  lemma SameInside(tools: Tools, files: Files, files': Files)
    requires forall p :: Listable(tools, p) ==> Get(files', p) == Get(files, p)
    ensures InsideFiles(tools, files') == InsideFiles(tools, files)
  {
    hide InsideFiles, Listable;
    forall q
      ensures q in InsideFiles(tools, files') <==> q in InsideFiles(tools, files)
      ensures q in InsideFiles(tools, files) ==> InsideFiles(tools, files')[q] == InsideFiles(tools, files)[q]
    {
      InsideEntry(tools, files, q);
      InsideEntry(tools, files', q);
      assert Listable(tools, INSIDE + q) ==> Get(files', INSIDE + q) == Get(files, INSIDE + q);
    }
  }

  /** Neither the lock nor the marker shows in a snapshot. */
  lemma SnapshotIgnoresProtocol(tools: Tools, d: Disk, node: Node, locked: bool)
    ensures NamespaceSnapshot(tools, d.(files := d.files[PURGE_MARKER := node])) == NamespaceSnapshot(tools, d)
    ensures NamespaceSnapshot(tools, d.(files := d.files - {PURGE_MARKER})) == NamespaceSnapshot(tools, d)
    ensures NamespaceSnapshot(tools, d.(locked := locked)) == NamespaceSnapshot(tools, d)
  {
    hide InsideFiles, Listable;
    forall p | Listable(tools, p)
      ensures p != PURGE_MARKER
    {
      ListableIsInside(tools, p);
    }
    SameInside(tools, d.files, d.files[PURGE_MARKER := node]);
    SameInside(tools, d.files, d.files - {PURGE_MARKER});
  }

  /** No listed path ends in a slash. */
  ghost predicate PlainFiles(tools: Tools, files: Files) {
    forall p :: p in files && Listable(tools, p) ==> p[|p| - 1] != '/'
  }

  lemma SnapshotIsPlain(tools: Tools, d: Disk)
    requires GoodTools(tools) && PlainFiles(tools, d.files)
    ensures Plain(NamespaceSnapshot(tools, d))
  {
    var inside, records := InsideFiles(tools, d.files), tools.records(d.pointer, d.bundles);
    assert Plain(records);
    hide GoodTools, InsideFiles;
    forall q | q in inside
      ensures q != "" && q[|q| - 1] != '/'
    {
      InsideEntry(tools, d.files, q);
      assert (INSIDE + q)[|INSIDE + q| - 1] == q[|q| - 1];
    }
  }

  // ----- What is to be kept -----

  /** The state someone cares about: workspace entries, and the records of finished transactions. */
  datatype Base = Base(files: Files, bundles: map<TransactionID, BundleDirectory>)

  function EntriesOf(tools: Tools, base: Base): Entries {
    InsideFiles(tools, base.files) + tools.records(None, base.bundles)
  }

  /** .uawp still has all of it. */
  ghost predicate Preserved(tools: Tools, base: Base, d: Disk) {
    && NAMESPACE in d.files
    && (forall p :: p in base.files && Listable(tools, p) ==> Get(d.files, p) == Some(base.files[p]))
    && SomeBundles(base.bundles, d.bundles)
    && (d.pointer.Some? ==> d.pointer.value.transactionID !in base.bundles)
  }

  lemma PreservedIsWithin(tools: Tools, base: Base, d: Disk)
    requires GoodTools(tools) && Preserved(tools, base, d)
    ensures Within(EntriesOf(tools, base), NamespaceSnapshot(tools, d))
  {
    var before, now := tools.records(None, base.bundles), tools.records(d.pointer, d.bundles);
    assert Within(before, now);
    RecordsAreRecords(tools, d.pointer, d.bundles);
    hide GoodTools, InsideFiles, Listable, SomeBundles;
    forall q | q in EntriesOf(tools, base)
      ensures q in NamespaceSnapshot(tools, d) && NamespaceSnapshot(tools, d)[q] == EntriesOf(tools, base)[q]
    {
      InsideEntry(tools, base.files, q);
      InsideEntry(tools, d.files, q);
      if q !in before {
        assert INSIDE + q in base.files && Listable(tools, INSIDE + q);
        assert Get(d.files, INSIDE + q) == Some(base.files[INSIDE + q]);
        InsideIsNoRecord(tools, q);
      }
    }
  }

  lemma RecordsAreRecords(tools: Tools, pointer: Option<LivePointer>, bundles: map<TransactionID, BundleDirectory>)
    requires GoodTools(tools)
    ensures forall q :: q in tools.records(pointer, bundles) ==> tools.isRecord(q)
  {
  }

  lemma InsideIsNoRecord(tools: Tools, q: string)
    requires Listable(tools, INSIDE + q)
    ensures !tools.isRecord(q)
  {
    assert (INSIDE + q)[|INSIDE|..] == q;
  }

  /** Some published archive holds exactly these entries. */
  ghost predicate Exported(s: State, entries: Entries) {
    exists path :: path in s.archives && HoldsExactly(s.archives[path], entries)
  }

  /** A marker that names an archive tells the truth about it. */
  ghost predicate Truthful(tools: Tools, tomb: Tomb) {
    tomb.marker.Some? && tools.read(tomb.marker.value).Some? && tools.read(tomb.marker.value).value.archiveSHA256.ArchiveSHA256? ==>
      var marker := tools.read(tomb.marker.value).value;
      forall e: Entries :: ListingMap(e) == marker.namespaceSHA256.listing ==> HoldsExactly(marker.archiveSHA256.members, e)
  }

  /** Archives are only ever added. */
  predicate ArchivesKept(s: State, s': State) {
    forall path :: path in s.archives ==> path in s'.archives && s'.archives[path] == s.archives[path]
  }

  // ----- Purge -----

  /** Only the marker and the lock have changed on the disk. */
  ghost predicate OnlyProtocol(d: Disk, d': Disk) {
    && d' == d.(files := d'.files, locked := d'.locked)
    && forall p :: p != PURGE_MARKER ==> Get(d'.files, p) == Get(d.files, p)
  }

  /** How a purge can leave the state: .uawp as it was but for the protocol's own files, or a published archive of exactly
      what it held. */
  ghost predicate PurgeEnds(tools: Tools, s: State, entries: Entries, r: PurgeRun) {
    && ArchivesKept(s, r.s) && PlainFiles(tools, r.s.disk.files)
    && (if NAMESPACE in r.s.disk.files then OnlyProtocol(s.disk, r.s.disk) && r.s.tombstone == s.tombstone
        else
          && Exported(r.s, entries) && s.tombstone.None? && r.s.disk.pointer.None?
          && (r.s.tombstone.Some? ==> Truthful(tools, r.s.tombstone.value)))
    && (r.Done? ==> NAMESPACE !in r.s.disk.files && r.s.tombstone.None?)
  }

  lemma ArchiveHolds(tools: Tools, entries: Entries)
    requires GoodTools(tools) && Plain(entries)
    ensures Enumerates(tools.order(entries), entries)
    ensures Accepted(tools.format, ArchiveOf(tools, entries), ListingIn(entries, tools.order(entries))) ==>
      HoldsExactly(ArchiveOf(tools, entries), entries)
  {
    var order := tools.order(entries);
    assert Enumerates(order, entries);
    hide GoodTools, ArchiveIn, ListingIn, Accepted, HoldsExactly, Enumerates;
    if Accepted(tools.format, ArchiveOf(tools, entries), ListingIn(entries, order)) {
      AcceptedMeansHeld(tools.format, ArchiveOf(tools, entries), entries, order);
    }
  }

  /** The export publishes an archive of exactly the entries, or nothing. */
  lemma ExportHolds(tools: Tools, s: State, entries: Entries, path: string)
    requires GoodTools(tools) && Plain(entries)
    ensures var r := Export(tools, s, entries, path);
      && r.s == s.(archives := r.s.archives, left := r.s.left) && ArchivesKept(s, r.s)
      && (r.Done? ==>
            && path in r.s.archives && r.s.archives[path] == ArchiveOf(tools, entries)
            && HoldsExactly(r.s.archives[path], entries))
  {
    hide ArchiveIn, ListingIn, Accepted, HoldsExactly, Enumerates, NamespaceSnapshot, Fingerprinted, Plain, GoodTools;
    ArchiveHolds(tools, entries);
  }

  lemma CompleteIsTruthful(tools: Tools, marker: Marker, entries: Entries, planID: PlanID, left: Entries, kept: bool)
    requires GoodTools(tools) && marker.archiveSHA256.ArchiveSHA256? && HoldsExactly(marker.archiveSHA256.members, entries)
    requires marker.namespaceSHA256 == Fingerprinted(entries)
    ensures Truthful(tools, Tomb(planID, left, if kept then Some(tools.encode(marker)) else None))
  {
    assert tools.read(tools.encode(marker)) == Some(marker);
    hide HoldsExactly, GoodTools;
    forall e: Entries | ListingMap(e) == ListingMap(entries)
      ensures HoldsExactly(marker.archiveSHA256.members, e)
    {
      FingerprintDetermines(e, entries);
    }
  }

  lemma MarkedIsProtocol(tools: Tools, s: State, marker: Marker)
    requires PlainFiles(tools, s.disk.files)
    ensures OnlyProtocol(s.disk, Marked(tools, s, marker).disk) && PlainFiles(tools, Marked(tools, s, marker).disk.files)
    ensures NamespaceSnapshot(tools, Marked(tools, s, marker).disk) == NamespaceSnapshot(tools, s.disk)
    ensures NAMESPACE in s.disk.files ==> NAMESPACE in Marked(tools, s, marker).disk.files
  {
    hide NamespaceSnapshot;
    SnapshotIgnoresProtocol(tools, s.disk, File(tools.encode(marker), PRIVATE_FILE_MODE), s.disk.locked);
    assert !Listable(tools, PURGE_MARKER);
    hide Listable;
  }

  lemma RenamedFacts(tools: Tools, s: State, planID: PlanID)
    ensures var s' := Renamed(tools, s, planID);
      && NAMESPACE !in s'.disk.files && PlainFiles(tools, s'.disk.files) && s'.archives == s.archives
      && s'.disk.pointer.None? && !s'.disk.locked && s'.tombstone.Some? && s'.tombstone.value.entries == NamespaceSnapshot(tools, s.disk)
      && s'.tombstone.value.planID == planID
      && s'.tombstone.value.marker
         == if PURGE_MARKER in s.disk.files && s.disk.files[PURGE_MARKER].File? then Some(s.disk.files[PURGE_MARKER].content) else None
  {
    hide NamespaceSnapshot;
  }

  lemma ExportedStays(s: State, s': State, path: string, entries: Entries)
    requires path in s.archives && HoldsExactly(s.archives[path], entries) && s'.archives == s.archives
    ensures Exported(s', entries)
  {
    hide HoldsExactly;
  }

  lemma ExportedEnds(tools: Tools, s: State, entries: Entries, marker: Marker, removal: Removal, path: string)
    requires GoodTools(tools) && NAMESPACE in s.disk.files && PlainFiles(tools, s.disk.files) && NamespaceSnapshot(tools, s.disk) == entries
    requires path in s.archives && HoldsExactly(s.archives[path], entries)
    requires marker.namespaceSHA256 == Fingerprinted(entries) && marker.archiveSHA256 == ArchiveSHA256(s.archives[path])
    ensures PurgeEnds(tools, s, entries, PurgeExported(tools, s, marker, removal))
  {
    hide HoldsExactly, Fingerprinted, PlainFiles, Truthful, NamespaceSnapshot, GoodTools, Renamed, Exported;
    MarkedIsProtocol(tools, s, marker);
    assert OnlyProtocol(s.disk, s.disk);
    if s.left > 0 {
      var s3 := Marked(tools, s, marker).(left := s.left - 1);
      RenamedFacts(tools, s3, marker.planID);
      var tomb := Renamed(tools, s3, marker.planID).tombstone.value;
      assert tomb.marker == Some(tools.encode(marker));
      CompleteIsTruthful(tools, marker, entries, marker.planID, tomb.entries, true);
      if removal.CutOff? {
        CompleteIsTruthful(tools, marker, entries, marker.planID, tomb.entries - removal.gone, !removal.marker);
      }
      ExportedStays(s, PurgeExported(tools, s, marker, removal).s, path, entries);
    }
  }

  lemma SameDiskEnds(tools: Tools, s: State, s1: State, entries: Entries, r: PurgeRun)
    requires NAMESPACE in s.disk.files && OnlyProtocol(s.disk, s1.disk) && s1.tombstone == s.tombstone && ArchivesKept(s, s1)
    requires r.Stopped? && r.s == s1 && PlainFiles(tools, s1.disk.files)
    ensures PurgeEnds(tools, s, entries, r)
  {
    hide PlainFiles;
    assert |NAMESPACE| != |PURGE_MARKER|;
    assert Get(s1.disk.files, NAMESPACE) == Get(s.disk.files, NAMESPACE);
  }

  lemma EndsSince(tools: Tools, s: State, s1: State, entries: Entries, r: PurgeRun)
    requires PurgeEnds(tools, s1, entries, r) && ArchivesKept(s, s1) && s1.tombstone == s.tombstone && OnlyProtocol(s.disk, s1.disk)
    ensures PurgeEnds(tools, s, entries, r)
  {
    hide PlainFiles, Truthful, HoldsExactly;
  }

  /** From the marker on: a purge that stops before the rename leaves .uawp as it was, and one that stops after it has
      published an archive of exactly what was there. */
  lemma PurgeUnderLockKeeps(tools: Tools, s: State, planID: PlanID, path: string, removal: Removal)
    requires GoodTools(tools) && NAMESPACE in s.disk.files && PlainFiles(tools, s.disk.files)
    ensures PurgeEnds(tools, s, NamespaceSnapshot(tools, s.disk), PurgeUnderLock(tools, s, planID, path, removal))
  {
    hide HoldsExactly, PlainFiles, Plain, NamespaceSnapshot, GoodTools, Export, PurgeExported, ArchiveOf, PurgeEnds, Marked;
    var entries := NamespaceSnapshot(tools, s.disk);
    var marker := Marker(planID, path, Fingerprinted(entries), NoArchive);
    SnapshotIsPlain(tools, s.disk);
    SameDiskEnds(tools, s, s, entries, Stopped(s, MarkerExists));
    SameDiskEnds(tools, s, s, entries, Stopped(s, NoWrite));
    if PURGE_MARKER !in s.disk.files && s.left > 0 {
      var s1 := Marked(tools, s, marker).(left := s.left - 1);
      MarkedIsProtocol(tools, s, marker);
      MarkedElsewhere(tools, s, marker);
      ExportHolds(tools, s1, entries, path);
      var r2 := Export(tools, s1, entries, path);
      if r2.Done? {
        var complete := marker.(archiveSHA256 := ArchiveSHA256(ArchiveOf(tools, entries)));
        ExportedEnds(tools, r2.s, entries, complete, removal, path);
        EndsSince(tools, s, r2.s, entries, PurgeExported(tools, r2.s, complete, removal));
      } else {
        SameDiskEnds(tools, s, r2.s, entries, r2);
      }
    }
  }

  lemma MarkedElsewhere(tools: Tools, s: State, marker: Marker)
    ensures Marked(tools, s, marker) == s.(disk := Marked(tools, s, marker).disk)
  {
  }

  lemma UnlockedEnds(tools: Tools, s: State, entries: Entries, r: PurgeRun)
    requires PurgeEnds(tools, s, entries, r)
    ensures PurgeEnds(tools, s, entries, Unlock(r)) && !Unlock(r).s.disk.locked
  {
    hide PlainFiles, Truthful, HoldsExactly;
  }

  /** A purge, stopped anywhere. */
  lemma PurgeKeeps(tools: Tools, s: State, planID: PlanID, path: string, inputs: seq<Input>, removal: Removal)
    requires GoodTools(tools) && NAMESPACE in s.disk.files && PlainFiles(tools, s.disk.files) && !s.disk.locked
    ensures var r := Purged(tools, s, planID, path, inputs, removal);
      && PurgeEnds(tools, s, NamespaceSnapshot(tools, s.disk), r) && !r.s.disk.locked
      && (r.s.disk.pointer.Some? ==> r.s.disk == s.disk) && (s.disk.pointer.Some? ==> r.s.disk == s.disk)
  {
    hide PlainFiles, NamespaceSnapshot, GoodTools, PurgeEnds, PurgeUnderLock, ReleasedInput;
    var entries := NamespaceSnapshot(tools, s.disk);
    var r0 := AcquireLock(Machine(s.disk, s.left), false);
    var s1 := s.(disk := r0.m.disk, left := r0.m.left);
    LockIsProtocol(s.disk, s.left);
    if r0.Halt? {
      SameDiskEnds(tools, s, s1, entries, Stopped(s1, Refused(r0.fault)));
    } else {
      SnapshotIgnoresProtocol(tools, s.disk, Directory(0), true);
      SameDiskEnds(tools, s, s1, entries, Stopped(s1, NotReleased));
      UnlockedEnds(tools, s, entries, Stopped(s1, NotReleased));
      PurgeUnderLockKeeps(tools, s1, planID, path, removal);
      var r1 := PurgeUnderLock(tools, s1, planID, path, removal);
      EndsSince(tools, s, s1, entries, r1);
      UnlockedEnds(tools, s, entries, r1);
      EndsLeaveNoPointer(tools, s1, entries, r1);
    }
  }

  lemma LockIsProtocol(d: Disk, left: nat)
    requires NAMESPACE in d.files && !d.locked
    ensures var r := AcquireLock(Machine(d, left), false);
      && (r.Halt? ==> r.m.disk == d)
      && (r.Go? ==> r.m.disk == d.(locked := true) && d.pointer.None? && PURGE_MARKER !in d.files)
      && OnlyProtocol(d, r.m.disk)
  {
  }

  lemma EndsLeaveNoPointer(tools: Tools, s: State, entries: Entries, r: PurgeRun)
    requires PurgeEnds(tools, s, entries, r) && s.disk.pointer.None?
    ensures r.s.disk.pointer.None?
  {
    hide PlainFiles, Truthful, HoldsExactly;
  }

  // ----- Cleanup -----

  /** What a cleanup may remove is in the archive its marker names. */
  lemma CleanupIsExported(tools: Tools, s: State, plan: CleanupPlan)
    requires CleanupAllowed(tools, s, plan) && Truthful(tools, s.tombstone.value)
    ensures Exported(s, s.tombstone.value.entries)
  {
    hide HoldsExactly, ListingMap, FileVerifies;
    var marker := TombMarker(tools, s).value;
    assert HoldsExactly(s.archives[marker.exportPath], s.tombstone.value.entries);
  }

  ghost predicate TombTruthful(tools: Tools, s: State) {
    s.tombstone.Some? ==> Truthful(tools, s.tombstone.value)
  }

  lemma RemovedIsTruthful(tools: Tools, s: State, removal: Removal)
    requires s.tombstone.Some? && TombTruthful(tools, s)
    ensures TombTruthful(tools, Removed(s, removal).s)
    ensures Removed(s, removal).s == s.(tombstone := Removed(s, removal).s.tombstone)
  {
    hide HoldsExactly;
  }

  /** Cleanup, of any plan however old: nothing but the tombstone changes, and only if a published archive holds all of it. */
  lemma CleanupKeeps(tools: Tools, s: State, plan: CleanupPlan, approved: CleanupID, removal: Removal)
    requires TombTruthful(tools, s)
    ensures var r := CleanedUp(tools, s, plan, approved, removal);
      && r.s == s.(tombstone := r.s.tombstone) && TombTruthful(tools, r.s)
      && (r.s != s ==> s.tombstone.Some? && Exported(s, s.tombstone.value.entries) && approved == CleanupOf(plan))
  {
    hide Truthful, HoldsExactly, FileVerifies, Fingerprinted, Exported;
    if CleanupAllowed(tools, s, plan) {
      CleanupIsExported(tools, s, plan);
      RemovedIsTruthful(tools, s, removal);
    }
    hide CleanupAllowed;
  }

  lemma FewerEntries(entries: Entries, gone: set<string>)
    ensures Fingerprinted(entries - gone) == Fingerprinted(entries) <==> forall q :: q in gone ==> q !in entries
  {
    if Fingerprinted(entries - gone) == Fingerprinted(entries) {
      FingerprintDetermines(entries - gone, entries);
      forall q | q in gone
        ensures q !in entries
      {
        assert q !in entries - gone;
      }
    }
    if forall q :: q in gone ==> q !in entries {
      assert entries - gone == entries;
    }
  }

  /** A tombstone whose removal was cut off is still cleaned up by its plan exactly when the marker and every entry are
      still there. */
  lemma CutRemovalBlocksCleanup(tools: Tools, s: State, plan: CleanupPlan, gone: set<string>, marker: bool)
    requires CleanupAllowed(tools, s, plan)
    ensures CleanupAllowed(tools, Removed(s, CutOff(gone, marker)).s, plan)
      <==> !marker && forall q :: q in gone ==> q !in s.tombstone.value.entries
  {
    hide FileVerifies, Fingerprinted;
    FewerEntries(s.tombstone.value.entries, gone);
  }

  // ----- Abort -----

  /** t is the transaction of an abort. */
  ghost predicate IsAbort(t: Txn) {
    && t.Size() == 1 && t.plan.changes[0].path == PURGE_MARKER && t.plan.metadata.migrationReceiptPath == ""
    && NAMESPACE in t.origin
  }

  lemma AbortPlan(tools: Tools, root: Root, files: Files, controllerID: string, reason: string)
    requires PlanPurgeAbort(tools, root, files, controllerID, reason).Some?
    ensures var p := PlanPurgeAbort(tools, root, files, controllerID, reason).value;
      && WellFormed(p) && p.workspace == root.path && p.metadata.migrationReceiptPath == ""
      && |p.changes| == 1 && p.changes[0].path == PURGE_MARKER && ChangePaths(p.changes) == {PURGE_MARKER}
  {
    hide NewPlan, Canonical, DistinctKeys;
    var c := NewDeleteFile(PURGE_MARKER, HashBytes(files[PURGE_MARKER].content));
    var metadata := NO_METADATA.(controllerID := controllerID, reason := reason, recoveryAction := Rollback);
    OneChangePlan("purge-abort", root.path, c, [], metadata);
    assert |PURGE_MARKER| > 0;
    PathsOfOne(c);
  }

  /** d' is d but for the marker, one bundle, the live pointer to it, and staging's directory. */
  ghost predicate BesideMarker(d: Disk, d': Disk, id: TransactionID) {
    && d'.bundles - {id} == d.bundles - {id} && (d'.pointer.Some? ==> d'.pointer.value.transactionID == id)
    && forall p :: p != PURGE_MARKER && p != "" ==> SameOrStaged(d.files, d'.files, p)
  }

  /** The same entry, or the recovery directory that staging makes. */
  predicate SameOrStaged(files: Files, files': Files, p: string) {
    || Get(files', p) == Get(files, p)
    || (p == RECOVERY_ROOT && Get(files, p) == None && Get(files', p) == Some(Directory(PRIVATE_DIRECTORY_MODE)))
  }

  lemma FramedIsBeside(t: Txn, d: Disk, d': Disk)
    requires IsAbort(t) && ChangePaths(t.plan.changes) == {PURGE_MARKER} && Framed(t, d'.files) && d.files == t.origin
    requires d'.bundles - {t.ID()} == d.bundles - {t.ID()} && (d'.pointer.Some? ==> d'.pointer.value.transactionID == t.ID())
    ensures BesideMarker(d, d', t.ID())
  {
    hide ChangePaths;
    forall p | p != PURGE_MARKER && p != ""
      ensures SameOrStaged(d.files, d'.files, p)
    {
      assert Get(d'.files, p) == Get(StagedFiles(t.origin), p);
    }
  }

  /** Nothing lies under an absent namespace. */
  ghost predicate Nested(files: Files) {
    NAMESPACE !in files ==> forall p :: p in files ==> !(INSIDE <= p)
  }

  lemma NestedFacts(files: Files)
    requires Nested(files)
    ensures ProperTree(files) && (PURGE_MARKER in files ==> NAMESPACE in files)
  {
    assert INSIDE <= RECOVERY_ROOT && INSIDE <= PURGE_MARKER;
  }

  lemma BesideStaysPlain(tools: Tools, d: Disk, d': Disk, id: TransactionID)
    requires BesideMarker(d, d', id) && NAMESPACE in d.files && PlainFiles(tools, d.files)
    ensures PlainFiles(tools, d'.files) && Nested(d'.files) && NAMESPACE in d'.files
  {
    assert |NAMESPACE| == 5 && |RECOVERY_ROOT| == 14 && RECOVERY_ROOT[13] == 'y' && |PURGE_MARKER| > 5;
    assert SameOrStaged(d.files, d'.files, NAMESPACE);
    forall p | p in d'.files && Listable(tools, p)
      ensures p[|p| - 1] != '/'
    {
      assert p != PURGE_MARKER && p != "" && SameOrStaged(d.files, d'.files, p);
      hide Listable;
    }
  }

  lemma AbortPaths(t: Txn)
    requires IsAbort(t)
    ensures ChangePaths(t.plan.changes) == {PURGE_MARKER}
  {
    assert t.plan.changes == [t.plan.changes[0]];
    PathsOfOne(t.plan.changes[0]);
  }

  ghost predicate UnderAbort(root: Root, d: Disk) {
    d.pointer.Some? ==> exists t: Txn :: t.root == root && Sound(t) && Holds(t, d) && IsAbort(t)
  }

  ghost predicate Sane(tools: Tools, root: Root, s: State) {
    && !s.disk.locked && PlainFiles(tools, s.disk.files) && Nested(s.disk.files) && TombTruthful(tools, s)
    && (s.disk.pointer.Some? ==> NAMESPACE in s.disk.files) && UnderAbort(root, s.disk)
  }

  /** The transaction an abort starts. */
  function AbortID(plan: Plan, started: int): TransactionID {
    TransactionOf(plan.id, started)
  }

  lemma OutcomeIsBeside(t: Txn, d: Disk, r: Run)
    requires ApplyOutcome(t, d, r) && IsAbort(t) && d.files == t.origin && d.pointer.None?
    ensures BesideMarker(d, r.m.disk, t.ID())
  {
    hide Sound, LabelsTrue, EitherWay, AllAfterState, Foreseen, BundleKept;
    AbortPaths(t);
    if r.m.disk.pointer.Some? {
      FramedIsBeside(t, d, r.m.disk);
    } else if r.Halt? {
      hide ApplyOutcome;
      assert r.m.disk.files in {t.origin, StagedFiles(t.origin)};
    } else {
      FramedIsBeside(t, d, r.m.disk);
    }
  }

  lemma PendingRefusesAbort(root: Root, m: Machine, plan: Plan, started: int, finished: int)
    requires m.disk.pointer.Some? && !m.disk.locked && NAMESPACE in m.disk.files
    ensures ApplyRun(root, m, plan, plan.id, started, finished).m.disk == m.disk
  {
    hide ApplyBody;
  }

  /** An abort, cut off at any write: beside the marker and its own transaction it changes nothing, and if that
      transaction is left unfinished, recovery can take it up. */
  lemma AbortKeeps(tools: Tools, root: Root, s: State, controllerID: string, reason: string, started: int, finished: int)
    requires Sane(tools, root, s) && PlanPurgeAbort(tools, root, s.disk.files, controllerID, reason).Some?
    ensures var plan := PlanPurgeAbort(tools, root, s.disk.files, controllerID, reason).value;
      var s' := Aborted(tools, root, s, controllerID, reason, started, finished);
      && s' == s.(disk := s'.disk, left := s'.left) && Sane(tools, root, s') && NAMESPACE in s.disk.files
      && (s'.disk == s.disk || (s.disk.pointer.None? && BesideMarker(s.disk, s'.disk, AbortID(plan, started))))
  {
    hide WellFormed, ApplyRun, StagedJournal, Sound, Holds, PlainFiles, Nested, Truthful, BesideMarker, ProperTree, ApplyOutcome,
      Foreseen, AllAfterState, Framed, LabelsTrue, PlanPurgeAbort;
    NestedFacts(s.disk.files);
    AbortPlan(tools, root, s.disk.files, controllerID, reason);
    MarkerIsThere(tools, root, s.disk.files, controllerID, reason);
    var plan := PlanPurgeAbort(tools, root, s.disk.files, controllerID, reason).value;
    var m, t := Machine(s.disk, s.left), TxnOf(root, s.disk.files, plan, started);
    if s.disk.pointer.Some? {
      PendingRefusesAbort(root, m, plan, started, finished);
    } else {
      var r := ApplyRun(root, m, plan, plan.id, started, finished);
      ApplyStopsSafely(root, m, plan, plan.id, started, finished);
      ApplyUnlocks(root, m, plan, plan.id, started, finished);
      assert IsAbort(t) && t.ID() == AbortID(plan, started) by {
        hide IsAbort;
        TxnIsAbort(root, s.disk.files, plan, started);
      }
      OutcomeIsBeside(t, s.disk, r);
      BesideStaysPlain(tools, s.disk, r.m.disk, t.ID());
      OutcomeIsUnderAbort(t, s.disk, r);
    }
  }

  lemma TxnIsAbort(root: Root, files: Files, plan: Plan, started: int)
    requires |plan.changes| == 1 && plan.changes[0].path == PURGE_MARKER && plan.metadata.migrationReceiptPath == "" && NAMESPACE in files
    ensures IsAbort(TxnOf(root, files, plan, started)) && TxnOf(root, files, plan, started).ID() == AbortID(plan, started)
  {
  }

  lemma MarkerIsThere(tools: Tools, root: Root, files: Files, controllerID: string, reason: string)
    requires PlanPurgeAbort(tools, root, files, controllerID, reason).Some?
    ensures PURGE_MARKER in files
  {
  }

  lemma OutcomeIsUnderAbort(t: Txn, d: Disk, r: Run)
    requires ApplyOutcome(t, d, r) && IsAbort(t)
    ensures UnderAbort(t.root, r.m.disk)
  {
    hide Sound, Holds, LabelsTrue, AllAfterState, Framed, IsAbort;
  }

  /** A recovery of an abort, cut off at any write. */
  lemma RepairKeeps(tools: Tools, root: Root, s: State, a: Attempt)
    requires Sane(tools, root, s) && a.action in {Rollback, Continue} && s.disk.pointer.Some?
    ensures var d' := Attempted(root, s.disk, a).m.disk;
      && Sane(tools, root, s.(disk := d')) && BesideMarker(s.disk, d', s.disk.pointer.value.transactionID)
  {
    hide Sound, Attempted, PlainFiles, Nested, Truthful, BesideMarker, EitherWay, Framed, BundleKept, IsAbort, Reached,
      ReceiptAccepted, Progressed, NoDirectoryMade, Offers;
    var t: Txn :| t.root == root && Sound(t) && Holds(t, s.disk) && IsAbort(t);
    var k := RecoveryKeeps(t, s.disk, a, 0, false);
    var r := Attempted(root, s.disk, a);
    BothFramedAreBeside(t, s.disk, r.m.disk);
    BesideStaysPlain(tools, s.disk, r.m.disk, t.ID());
  }

  lemma BothFramedAreBeside(t: Txn, d: Disk, d': Disk)
    requires IsAbort(t) && Framed(t, d.files) && Framed(t, d'.files) && d'.bundles - {t.ID()} == d.bundles - {t.ID()}
    requires d'.pointer.Some? ==> d'.pointer.value.transactionID == t.ID()
    ensures BesideMarker(d, d', t.ID())
  {
    AbortPaths(t);
    hide ChangePaths, StagedFiles, IsAbort;
    assert t.plan.metadata.migrationReceiptPath == "" by {
      AbortWritesNoReceipt(t);
    }
    forall p | p != PURGE_MARKER && p != ""
      ensures Get(d'.files, p) == Get(d.files, p)
    {
      assert Get(d'.files, p) == Get(StagedFiles(t.origin), p) && Get(d.files, p) == Get(StagedFiles(t.origin), p);
    }
  }

  lemma AbortWritesNoReceipt(t: Txn)
    requires IsAbort(t)
    ensures t.plan.metadata.migrationReceiptPath == ""
  {
  }

  // ----- Any number of purges, aborts, recoveries and cleanups -----

  datatype Move =
    | Purge(planID: PlanID, path: string, inputs: seq<Input>, removal: Removal)
    | Abort(controllerID: string, reason: string, started: int, finished: int)
    | Repair(attempt: Attempt)
    | Cleanup(plan: CleanupPlan, approved: CleanupID, removal: Removal)

  /** One move, with the writes it gets before it is cut off. */
  ghost function Moved(tools: Tools, root: Root, s: State, move: Move, writes: nat): State
    requires GoodTools(tools)
  {
    var s0 := s.(left := writes);
    match move
    case Purge(planID, path, inputs, removal) => Purged(tools, s0, planID, path, inputs, removal).s
    case Abort(controllerID, reason, started, finished) => Aborted(tools, root, s0, controllerID, reason, started, finished)
    case Repair(attempt) => s0.(disk := Attempted(root, s0.disk, attempt.(writes := writes)).m.disk)
    case Cleanup(plan, approved, removal) => CleanedUp(tools, s0, plan, approved, removal).s
  }

  ghost function AllMoved(tools: Tools, root: Root, s: State, moves: seq<(Move, nat)>): State
    requires GoodTools(tools)
    decreases |moves|
  {
    if moves == [] then s else AllMoved(tools, root, Moved(tools, root, s, moves[0].0, moves[0].1), moves[1..])
  }

  /** Recoveries choose a way, and an abort's transaction has an identifier of its own. */
  ghost predicate FitMove(tools: Tools, root: Root, s: State, move: Move) {
    match move
    case Abort(controllerID, reason, started, finished) =>
      var plan := PlanPurgeAbort(tools, root, s.disk.files, controllerID, reason);
      plan.Some? ==> AbortID(plan.value, started) !in s.disk.bundles
    case Repair(attempt) => attempt.action in {Rollback, Continue}
    case _ => true
  }

  ghost predicate AllFit(tools: Tools, root: Root, s: State, moves: seq<(Move, nat)>)
    requires GoodTools(tools)
    decreases |moves|
  {
    moves != [] ==>
      && FitMove(tools, root, s, moves[0].0)
      && AllFit(tools, root, Moved(tools, root, s, moves[0].0, moves[0].1), moves[1..])
  }

  /** Everything in base is somewhere whole: in .uawp, in the tombstone, or in a published archive. */
  ghost predicate NotLost(tools: Tools, s: State, base: Base) {
    || Preserved(tools, base, s.disk)
    || (s.tombstone.Some? && Within(EntriesOf(tools, base), s.tombstone.value.entries))
    || InArchive(s, EntriesOf(tools, base))
  }

  ghost predicate InArchive(s: State, e: Entries) {
    exists held: Entries, path: string :: path in s.archives && HoldsExactly(s.archives[path], held) && Within(e, held)
  }

  lemma ArchivedStays(s: State, s': State, e: Entries)
    requires InArchive(s, e) && ArchivesKept(s, s')
    ensures InArchive(s', e)
  {
    hide HoldsExactly, Within;
  }

  lemma ExportedIsArchived(s: State, held: Entries, e: Entries)
    requires Exported(s, held) && Within(e, held)
    ensures InArchive(s, e)
  {
    hide HoldsExactly, Within;
  }

  lemma BesideStaysPreserved(tools: Tools, base: Base, d: Disk, d': Disk, id: TransactionID)
    requires BesideMarker(d, d', id) && Preserved(tools, base, d) && id !in base.bundles
    ensures Preserved(tools, base, d')
  {
    assert |NAMESPACE| == 5 && |PURGE_MARKER| > 5;
    assert SameOrStaged(d.files, d'.files, NAMESPACE);
    forall p | p in base.files && Listable(tools, p)
      ensures Get(d'.files, p) == Some(base.files[p])
    {
      assert p != PURGE_MARKER && p != "" && Get(d.files, p) == Some(base.files[p]) && SameOrStaged(d.files, d'.files, p);
    }
    forall x | x in base.bundles
      ensures x in d'.bundles && d'.bundles[x] == base.bundles[x]
    {
      assert x in d.bundles && x in d.bundles - {id};
      assert x in d'.bundles - {id};
    }
  }

  lemma ProtocolStaysPreserved(tools: Tools, base: Base, d: Disk, d': Disk)
    requires OnlyProtocol(d, d') && Preserved(tools, base, d)
    ensures Preserved(tools, base, d')
  {
    assert |NAMESPACE| == 5 && |PURGE_MARKER| > 5;
    assert Get(d'.files, NAMESPACE) == Get(d.files, NAMESPACE);
    forall p | p in base.files && Listable(tools, p)
      ensures Get(d'.files, p) == Some(base.files[p])
    {
      assert p != PURGE_MARKER;
    }
  }

  lemma EndsAreSane(tools: Tools, root: Root, s: State, entries: Entries, r: PurgeRun)
    requires PurgeEnds(tools, s, entries, r) && Sane(tools, root, s) && !r.s.disk.locked
    requires r.s.disk.pointer.Some? ==> r.s.disk == s.disk
    requires NAMESPACE !in r.s.disk.files ==> Nested(r.s.disk.files)
    ensures Sane(tools, root, r.s)
  {
    hide PlainFiles, Truthful, HoldsExactly, Sound, Holds, Exported, IsAbort;
  }

  lemma RenamedIsNested(tools: Tools, s: State, planID: PlanID)
    ensures Nested(Renamed(tools, s, planID).disk.files)
  {
    hide NamespaceSnapshot;
  }

  lemma ExportedLeavesNested(tools: Tools, s: State, marker: Marker, removal: Removal)
    requires NAMESPACE in s.disk.files
    ensures var files := PurgeExported(tools, s, marker, removal).s.disk.files; NAMESPACE !in files ==> Nested(files)
  {
    hide NamespaceSnapshot, Fingerprinted, Renamed, Nested;
    assert |NAMESPACE| != |PURGE_MARKER|;
    RenamedIsNested(tools, Marked(tools, s, marker).(left := if s.left > 0 then s.left - 1 else 0), marker.planID);
  }

  lemma ExportKeepsDisk(tools: Tools, s: State, entries: Entries, path: string)
    requires GoodTools(tools)
    ensures Export(tools, s, entries, path).s.disk == s.disk
  {
    hide NamespaceSnapshot, Fingerprinted, Accepted, ArchiveIn, ListingIn, GoodTools;
  }

  /** The rename leaves nothing under .uawp. */
  lemma PurgeLeavesNested(tools: Tools, s: State, planID: PlanID, path: string, inputs: seq<Input>, removal: Removal)
    requires GoodTools(tools) && NAMESPACE in s.disk.files
    ensures var files := Purged(tools, s, planID, path, inputs, removal).s.disk.files; NAMESPACE !in files ==> Nested(files)
  {
    hide GoodTools, ReleasedInput, PurgeUnderLock, Nested;
    var r := AcquireLock(Machine(s.disk, s.left), false);
    LockedLeavesNested(tools, s.(disk := r.m.disk, left := r.m.left), planID, path, removal);
  }

  lemma LockedLeavesNested(tools: Tools, s: State, planID: PlanID, path: string, removal: Removal)
    requires GoodTools(tools) && NAMESPACE in s.disk.files
    ensures var files := PurgeUnderLock(tools, s, planID, path, removal).s.disk.files; NAMESPACE !in files ==> Nested(files)
  {
    hide GoodTools, NamespaceSnapshot, Fingerprinted, ArchiveOf, Export, PurgeExported, Nested;
    assert |NAMESPACE| != |PURGE_MARKER|;
    var entries := NamespaceSnapshot(tools, s.disk);
    var marker := Marker(planID, path, Fingerprinted(entries), NoArchive);
    var s1 := Marked(tools, s, marker).(left := if s.left > 0 then s.left - 1 else 0);
    ExportKeepsDisk(tools, s1, entries, path);
    ExportedLeavesNested(tools, Export(tools, s1, entries, path).s, marker.(archiveSHA256 := ArchiveSHA256(ArchiveOf(tools, entries))), removal);
  }

  lemma PurgeMoveKeeps(tools: Tools, root: Root, s: State, base: Base, planID: PlanID, path: string, inputs: seq<Input>, removal: Removal)
    requires GoodTools(tools) && Sane(tools, root, s) && NotLost(tools, s, base)
    ensures var s' := Purged(tools, s, planID, path, inputs, removal).s; Sane(tools, root, s') && NotLost(tools, s', base)
  {
    hide GoodTools, NamespaceSnapshot, ReleasedInput, PlainFiles, Truthful, HoldsExactly, EntriesOf, Exported, Within, InArchive, Sane,
      Preserved, Nested, PurgeUnderLock, Purged;
    if NAMESPACE in s.disk.files {
      SaneFacts(tools, root, s);
      var r := Purged(tools, s, planID, path, inputs, removal);
      PurgeKeeps(tools, s, planID, path, inputs, removal);
      PurgeLeavesNested(tools, s, planID, path, inputs, removal);
      EndsAreSane(tools, root, s, NamespaceSnapshot(tools, s.disk), r);
      if InArchive(s, EntriesOf(tools, base)) {
        ArchivedStays(s, r.s, EntriesOf(tools, base));
      }
      if Preserved(tools, base, s.disk) {
        PreservedIsWithin(tools, base, s.disk);
        if NAMESPACE in r.s.disk.files {
          ProtocolStaysPreserved(tools, base, s.disk, r.s.disk);
        } else {
          ExportedIsArchived(r.s, NamespaceSnapshot(tools, s.disk), EntriesOf(tools, base));
        }
      }
    } else {
      NoNamespaceNoPurge(tools, s, planID, path, inputs, removal);
    }
  }

  lemma NoNamespaceNoPurge(tools: Tools, s: State, planID: PlanID, path: string, inputs: seq<Input>, removal: Removal)
    requires GoodTools(tools) && NAMESPACE !in s.disk.files
    ensures Purged(tools, s, planID, path, inputs, removal).s == s
  {
    hide GoodTools;
  }

  lemma SaneFacts(tools: Tools, root: Root, s: State)
    requires Sane(tools, root, s)
    ensures !s.disk.locked && PlainFiles(tools, s.disk.files)
  {
  }

  lemma CleanupMoveKeeps(tools: Tools, root: Root, s: State, base: Base, plan: CleanupPlan, approved: CleanupID, removal: Removal)
    requires Sane(tools, root, s) && NotLost(tools, s, base)
    ensures var s' := CleanedUp(tools, s, plan, approved, removal).s; Sane(tools, root, s') && NotLost(tools, s', base)
  {
    hide PlainFiles, Truthful, HoldsExactly, EntriesOf, Exported, Within, InArchive, Preserved, Nested, CleanupAllowed, UnderAbort,
      CleanedUp;
    CleanupKeeps(tools, s, plan, approved, removal);
    var s' := CleanedUp(tools, s, plan, approved, removal).s;
    if InArchive(s, EntriesOf(tools, base)) {
      ArchivedStays(s, s', EntriesOf(tools, base));
    }
    if s' != s && Within(EntriesOf(tools, base), s.tombstone.value.entries) {
      ExportedIsArchived(s, s.tombstone.value.entries, EntriesOf(tools, base));
      ArchivedStays(s, s', EntriesOf(tools, base));
    }
  }

  lemma DiskMoveKeeps(tools: Tools, root: Root, s: State, s': State, base: Base, id: TransactionID)
    requires NotLost(tools, s, base) && s' == s.(disk := s'.disk, left := s'.left)
    requires s'.disk == s.disk || (BesideMarker(s.disk, s'.disk, id) && (Preserved(tools, base, s.disk) ==> id !in base.bundles))
    ensures NotLost(tools, s', base)
  {
    hide EntriesOf, Within, InArchive, Preserved, BesideMarker;
    if InArchive(s, EntriesOf(tools, base)) {
      ArchivedStays(s, s', EntriesOf(tools, base));
    }
    if Preserved(tools, base, s.disk) && s'.disk != s.disk {
      BesideStaysPreserved(tools, base, s.disk, s'.disk, id);
    }
  }

  lemma PreservedBundles(tools: Tools, base: Base, d: Disk, id: TransactionID)
    requires Preserved(tools, base, d) && (id !in d.bundles || (d.pointer.Some? && d.pointer.value.transactionID == id))
    ensures id !in base.bundles
  {
  }

  lemma MoveKeeps(tools: Tools, root: Root, s: State, move: Move, writes: nat, base: Base)
    requires GoodTools(tools) && Sane(tools, root, s) && NotLost(tools, s, base) && FitMove(tools, root, s, move)
    ensures Sane(tools, root, Moved(tools, root, s, move, writes)) && NotLost(tools, Moved(tools, root, s, move, writes), base)
  {
    hide GoodTools, Preserved, EntriesOf, Within, InArchive, Sane, Purged, Aborted, CleanedUp, Attempted, PlanPurgeAbort, BesideMarker,
      NotLost;
    var s0, s' := s.(left := writes), Moved(tools, root, s, move, writes);
    BudgetIsNothing(tools, root, s, base, writes);
    match move {
      case Purge(planID, path, inputs, removal) =>
        PurgeMoveKeeps(tools, root, s0, base, planID, path, inputs, removal);
      case Abort(controllerID, reason, started, finished) =>
        if PlanPurgeAbort(tools, root, s.disk.files, controllerID, reason).Some? {
          var id := AbortID(PlanPurgeAbort(tools, root, s.disk.files, controllerID, reason).value, started);
          AbortKeeps(tools, root, s0, controllerID, reason, started, finished);
          if Preserved(tools, base, s.disk) {
            PreservedBundles(tools, base, s.disk, id);
          }
          DiskMoveKeeps(tools, root, s0, s', base, id);
        } else {
          NoPlanNoAbort(tools, root, s0, controllerID, reason, started, finished);
        }
      case Repair(attempt) =>
        if s.disk.pointer.Some? {
          var id := s.disk.pointer.value.transactionID;
          RepairKeeps(tools, root, s0, attempt.(writes := writes));
          if Preserved(tools, base, s.disk) {
            PreservedBundles(tools, base, s.disk, id);
          }
          DiskMoveKeeps(tools, root, s0, s', base, id);
        } else {
          NothingToRepair(root, s.disk, attempt.(writes := writes));
        }
      case Cleanup(plan, approved, removal) =>
        CleanupMoveKeeps(tools, root, s0, base, plan, approved, removal);
    }
  }

  lemma NoPlanNoAbort(tools: Tools, root: Root, s: State, controllerID: string, reason: string, started: int, finished: int)
    requires PlanPurgeAbort(tools, root, s.disk.files, controllerID, reason).None?
    ensures Aborted(tools, root, s, controllerID, reason, started, finished) == s
  {
  }

  lemma NothingToRepair(root: Root, d: Disk, a: Attempt)
    requires d.pointer.None?
    ensures Attempted(root, d, a).m.disk == d
  {
    assert LoadSnapshot(root, d) == Err(NoEvidence);
  }

  lemma BudgetIsNothing(tools: Tools, root: Root, s: State, base: Base, writes: nat)
    ensures Sane(tools, root, s) ==> Sane(tools, root, s.(left := writes))
    ensures NotLost(tools, s, base) ==> NotLost(tools, s.(left := writes), base)
  {
    hide PlainFiles, Truthful, UnderAbort, Nested, EntriesOf, Within, HoldsExactly, Preserved;
  }

  /** No purge, abort, recovery of an abort or cleanup, in any number and order and each cut off at any write, ever loses an
      entry that .uawp held or a record of a finished transaction. */
  lemma {:induction false} StateIsNeverLost(tools: Tools, root: Root, s: State, moves: seq<(Move, nat)>, base: Base)
    requires GoodTools(tools) && Sane(tools, root, s) && NotLost(tools, s, base) && AllFit(tools, root, s, moves)
    ensures NotLost(tools, AllMoved(tools, root, s, moves), base) && Sane(tools, root, AllMoved(tools, root, s, moves))
    decreases |moves|
  {
    hide Moved, Sane, NotLost, GoodTools, FitMove;
    if moves != [] {
      MoveKeeps(tools, root, s, moves[0].0, moves[0].1, base);
      StateIsNeverLost(tools, root, Moved(tools, root, s, moves[0].0, moves[0].1), moves[1..], base);
    }
  }

  /** It starts from any workspace with no unfinished transaction: all it holds is what is to be kept. */
  lemma StartIsNotLost(tools: Tools, root: Root, d: Disk, left: nat)
    requires NAMESPACE in d.files && PlainFiles(tools, d.files) && !d.locked && d.pointer.None?
    ensures var s := State(d, None, map[], left); Sane(tools, root, s) && NotLost(tools, s, Base(d.files, d.bundles))
  {
  }
}
