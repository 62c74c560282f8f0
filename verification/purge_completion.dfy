/** Where a purge ends that nothing stops, and the tombstones that can never be cleaned up. */
module PurgeCompletion {
  import opened Wrappers
  import opened Records
  import opened Engine
  import opened Archives
  import opened Purges
  import opened PurgeProofs

  /** The archive of these entries passes the verification before it is published. */
  ghost predicate Exportable(tools: Tools, entries: Entries)
    requires GoodTools(tools)
  {
    assert Enumerates(tools.order(entries), entries);
    Accepted(tools.format, ArchiveOf(tools, entries), ListingIn(entries, tools.order(entries)))
  }

  /** The listing the manifest of these entries holds. */
  ghost function ListingOf(tools: Tools, entries: Entries): seq<ExportEntry>
    requires GoodTools(tools)
  {
    assert Enumerates(tools.order(entries), entries);
    ListingIn(entries, tools.order(entries))
  }

  /** Nothing is in the way of a purge. */
  ghost predicate ReadyToPurge(tools: Tools, s: State, path: string, inputs: seq<Input>)
    requires GoodTools(tools)
  {
    && NAMESPACE in s.disk.files && s.disk.files[NAMESPACE].Directory? && !s.disk.locked && s.disk.pointer.None?
    && PURGE_MARKER !in s.disk.files && ReleasedInput(s.disk.files, inputs)
    && path !in s.archives && s.tombstone.None? && Exportable(tools, NamespaceSnapshot(tools, s.disk))
  }

  /** The purge got to its last step, the removal of the tombstone. */
  predicate PastRename(r: PurgeRun) {
    r.Done? || r.fault == RemovalStopped
  }

  ghost function CompleteMarker(tools: Tools, planID: PlanID, path: string, entries: Entries): Marker
    requires GoodTools(tools)
  {
    Marker(planID, path, Fingerprinted(entries), ArchiveSHA256(ArchiveOf(tools, entries)))
  }

  /** What the removal leaves of a tombstone. */
  function Leftover(tomb: Tomb, removal: Removal): Option<Tomb> {
    match removal
    case Whole => None
    case CutOff(gone, marker) => Some(Tomb(tomb.planID, tomb.entries - gone, if marker then None else tomb.marker))
  }

  lemma MarkedSnapshot(tools: Tools, s: State, marker: Marker)
    ensures NamespaceSnapshot(tools, Marked(tools, s, marker).disk) == NamespaceSnapshot(tools, s.disk)
    ensures PURGE_MARKER in Marked(tools, s, marker).disk.files
    ensures Marked(tools, s, marker).disk.files[PURGE_MARKER] == File(tools.encode(marker), PRIVATE_FILE_MODE)
    ensures Marked(tools, s, marker) == s.(disk := Marked(tools, s, marker).disk)
  {
    hide NamespaceSnapshot;
    SnapshotIgnoresProtocol(tools, s.disk, File(tools.encode(marker), PRIVATE_FILE_MODE), s.disk.locked);
  }

  lemma ExportedReaches(tools: Tools, s: State, marker: Marker, removal: Removal)
    requires marker.namespaceSHA256 == Fingerprinted(NamespaceSnapshot(tools, s.disk))
    ensures var r := PurgeExported(tools, s, marker, removal);
      && (PastRename(r) <==> s.left >= 2 && s.tombstone.None?)
      && (PastRename(r) ==>
            && r.s.archives == s.archives
            && r.s.tombstone == Leftover(Tomb(marker.planID, NamespaceSnapshot(tools, s.disk), Some(tools.encode(marker))), removal))
  {
    hide NamespaceSnapshot, Fingerprinted, Marked, Renamed;
    MarkedSnapshot(tools, s, marker);
    if s.left > 0 {
      RenamedFacts(tools, Marked(tools, s, marker).(left := s.left - 1), marker.planID);
    }
  }

  lemma ExportReaches(tools: Tools, s: State, entries: Entries, path: string)
    requires GoodTools(tools) && NamespaceSnapshot(tools, s.disk) == entries
    ensures var r := Export(tools, s, entries, path);
      && (r.Done? <==> path !in s.archives && Exportable(tools, entries) && s.left >= 1)
      && (r.Done? ==> r.s == s.(archives := s.archives[path := ArchiveOf(tools, entries)], left := s.left - 1))
      && !(r.Stopped? && r.fault == RemovalStopped)
  {
    hide NamespaceSnapshot, Fingerprinted, Accepted, ArchiveIn, ListingIn;
    assert Enumerates(tools.order(entries), entries);
    hide GoodTools, Enumerates;
  }

  lemma LockedReaches(tools: Tools, s: State, planID: PlanID, path: string, removal: Removal)
    requires GoodTools(tools)
    ensures var r, entries := PurgeUnderLock(tools, s, planID, path, removal), NamespaceSnapshot(tools, s.disk);
      && (PastRename(r) <==>
            && PURGE_MARKER !in s.disk.files && path !in s.archives && s.tombstone.None? && Exportable(tools, entries)
            && s.left >= 4)
      && (PastRename(r) ==>
            && r.s.archives == s.archives[path := ArchiveOf(tools, entries)]
            && r.s.tombstone == Leftover(Tomb(planID, entries, Some(tools.encode(CompleteMarker(tools, planID, path, entries)))), removal))
  {
    hide NamespaceSnapshot, Fingerprinted, Marked, Export, PurgeExported, GoodTools, Exportable, ArchiveOf, Leftover;
    var entries := NamespaceSnapshot(tools, s.disk);
    var marker := Marker(planID, path, Fingerprinted(entries), NoArchive);
    MarkedSnapshot(tools, s, marker);
    if PURGE_MARKER !in s.disk.files && s.left > 0 {
      var s1 := Marked(tools, s, marker).(left := s.left - 1);
      ExportReaches(tools, s1, entries, path);
      var r2 := Export(tools, s1, entries, path);
      if r2.Done? {
        ExportedReaches(tools, r2.s, CompleteMarker(tools, planID, path, entries), removal);
      }
    }
  }

  lemma LockFacts(d: Disk, left: nat)
    requires NAMESPACE in d.files
    ensures var r := AcquireLock(Machine(d, left), false);
      && (r.Go? <==> d.files[NAMESPACE].Directory? && !d.locked && d.pointer.None? && PURGE_MARKER !in d.files && left >= 1)
      && (r.Go? ==> r.m == Machine(d.(locked := true), left - 1))
  {
  }

  /** A purge gets to its last step exactly when nothing is in the way and it has the five writes before it, and then the
      archive holds what was there, and the tombstone is what was there with the completed marker, as far as the removal
      leaves it. */
  lemma PurgeGoesThroughExactly(tools: Tools, s: State, planID: PlanID, path: string, inputs: seq<Input>, removal: Removal)
    requires GoodTools(tools)
    ensures var r, entries := Purged(tools, s, planID, path, inputs, removal), NamespaceSnapshot(tools, s.disk);
      && (PastRename(r) <==> ReadyToPurge(tools, s, path, inputs) && s.left >= 5)
      && (PastRename(r) ==>
            && r.s.archives == s.archives[path := ArchiveOf(tools, entries)]
            && r.s.tombstone == Leftover(Tomb(planID, entries, Some(tools.encode(CompleteMarker(tools, planID, path, entries)))), removal))
  {
    hide NamespaceSnapshot, PurgeUnderLock, AcquireLock, GoodTools, Exportable, ArchiveOf, Leftover, CompleteMarker, ReleasedInput;
    if NAMESPACE in s.disk.files {
      LockFacts(s.disk, s.left);
      var r0 := AcquireLock(Machine(s.disk, s.left), false);
      SnapshotIgnoresProtocol(tools, s.disk, Directory(0), true);
      LockedReaches(tools, s.(disk := r0.m.disk, left := r0.m.left), planID, path, removal);
    }
  }

  /** A removal that is cut off does not end a purge. */
  lemma CutIsStopped(tools: Tools, s: State, planID: PlanID, path: string, inputs: seq<Input>)
    requires GoodTools(tools)
    ensures Purged(tools, s, planID, path, inputs, CutOff({}, false)).Stopped?
  {
    hide NamespaceSnapshot, Fingerprinted, GoodTools, AcquireLock, ReleasedInput, Export, Marked, Renamed;
  }

  /** A tombstone with its complete marker, and the archive the marker names. */
  lemma CompleteTombVerifies(tools: Tools, s: State, planID: PlanID, path: string, entries: Entries)
    requires GoodTools(tools) && path in s.archives && s.archives[path] == ArchiveOf(tools, entries)
    requires s.tombstone == Some(Tomb(planID, entries, Some(tools.encode(CompleteMarker(tools, planID, path, entries)))))
    ensures TombVerifies(tools, s) <==> FileVerifies(tools.format, ArchiveOf(tools, entries))
  {
    var marker := CompleteMarker(tools, planID, path, entries);
    assert tools.read(tools.encode(marker)) == Some(marker);
    hide GoodTools, Fingerprinted, FileVerifies, ArchiveOf;
  }

  lemma ExportReadsBack(tools: Tools, entries: Entries)
    requires GoodTools(tools) && Exportable(tools, entries)
    ensures FileVerifies(tools.format, ArchiveOf(tools, entries))
      <==> |tools.format.manifest(ListingOf(tools, entries))| <= MAX_MANIFEST_BYTES + 1 && Legible(ListingOf(tools, entries))
  {
    assert GoodFormat(tools.format) && Enumerates(tools.order(entries), entries);
    hide GoodFormat, Enumerates, ListingIn, ArchiveIn, FileVerifies, Legible, Accepted;
    ExportVerifies(tools.format, entries, tools.order(entries));
  }

  lemma CleanupNeedsVerification(tools: Tools, s: State, controllerID: string, reason: string)
    requires controllerID != "" && reason != ""
    ensures PlanCleanup(tools, s, controllerID, reason).Some? <==> TombVerifies(tools, s)
    ensures PlanCleanup(tools, s, controllerID, reason).Some? ==>
      CleanupAllowed(tools, s, PlanCleanup(tools, s, controllerID, reason).value)
  {
    hide FileVerifies, Fingerprinted;
  }

  lemma CutPurgeVerifies(tools: Tools, s: State, planID: PlanID, path: string, inputs: seq<Input>)
    requires GoodTools(tools) && PastRename(Purged(tools, s, planID, path, inputs, CutOff({}, false)))
    ensures var r, listing := Purged(tools, s, planID, path, inputs, CutOff({}, false)), ListingOf(tools, NamespaceSnapshot(tools, s.disk));
      TombVerifies(tools, r.s) <==> |tools.format.manifest(listing)| <= MAX_MANIFEST_BYTES + 1 && Legible(listing)
  {
    hide GoodTools, NamespaceSnapshot, Purged, TombVerifies, FileVerifies, ArchiveOf, ListingOf, Legible, CompleteMarker, Exportable;
    var entries := NamespaceSnapshot(tools, s.disk);
    PurgeGoesThroughExactly(tools, s, planID, path, inputs, CutOff({}, false));
    assert entries - {} == entries;
    CompleteTombVerifies(tools, Purged(tools, s, planID, path, inputs, CutOff({}, false)).s, planID, path, entries);
    ExportReadsBack(tools, entries);
  }

  /** A purge that is cut off between its rename and the removal can be planned for cleanup, and the plan is allowed,
      exactly when the manifest of its export is at most one byte, its last line feed, longer than what verification reads
      back, and the names in it are valid UTF-8; otherwise no cleanup whatsoever changes anything. */
  lemma CutPurgeIsCleanable(tools: Tools, s: State, planID: PlanID, path: string, inputs: seq<Input>, controllerID: string, reason: string)
    requires GoodTools(tools) && controllerID != "" && reason != ""
    requires PastRename(Purged(tools, s, planID, path, inputs, CutOff({}, false)))
    ensures var s', listing := Purged(tools, s, planID, path, inputs, CutOff({}, false)).s, ListingOf(tools, NamespaceSnapshot(tools, s.disk));
      if |tools.format.manifest(listing)| <= MAX_MANIFEST_BYTES + 1 && Legible(listing) then
        && PlanCleanup(tools, s', controllerID, reason).Some?
        && CleanupAllowed(tools, s', PlanCleanup(tools, s', controllerID, reason).value)
      else
        && PlanCleanup(tools, s', controllerID, reason).None?
        && forall plan, approved, removal :: CleanedUp(tools, s', plan, approved, removal).s == s'
  {
    hide GoodTools, NamespaceSnapshot, Purged, TombVerifies, Legible, ListingOf, PlanCleanup;
    CutPurgeVerifies(tools, s, planID, path, inputs);
    CleanupNeedsVerification(tools, Purged(tools, s, planID, path, inputs, CutOff({}, false)).s, controllerID, reason);
  }
}
