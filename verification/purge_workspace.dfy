/** ApplyPurge and ApplyPurgeCleanup as they run, on a workspace updated in place. */
module PurgeWorkspaces {
  import opened Wrappers
  import opened Records
  import opened Engine
  import opened Ownerships
  import opened Lifecycle
  import opened Archives
  import opened Purges
  import opened PurgeProofs
  import opened Workspaces

  class PurgeWorkspace {
    const workspace: Workspace
    const tools: Tools
    var tombstone: Option<Tomb>
    var archives: map<string, seq<Member>>

    constructor (workspace: Workspace, tools: Tools, tombstone: Option<Tomb>, archives: map<string, seq<Member>>)
      ensures this.workspace == workspace && this.tools == tools
      ensures this.tombstone == tombstone && this.archives == archives
    {
      this.workspace, this.tools, this.tombstone, this.archives := workspace, tools, tombstone, archives;
    }

    function Now(): State
      reads this, workspace
    {
      State(workspace.OnDisk(), tombstone, archives, workspace.left)
    }

    ghost predicate Reached(fault: Option<PurgeFault>, r: PurgeRun)
      reads this, workspace
    {
      Now() == r.s && fault == (if r.Stopped? then Some(r.fault) else None)
    }

    /** verifyReleasedInput: the search for the ownership input, and what is asked of it. */
    method VerifyReleasedInput(inputs: seq<Input>) returns (ok: bool)
      ensures ok <==> ReleasedInput(workspace.files, inputs)
    {
      hide OwnerOf;
      assert inputs[0..] == inputs;
      for i := 0 to |inputs|
        invariant OwnerInput(inputs) == OwnerInput(inputs[i..])
      {
        assert inputs[i..][1..] == inputs[i + 1..];
        if inputs[i].path == OWNER_PATH {
          var owner := OwnerOf(workspace.files);
          return InputHolds(workspace.files, inputs[i]) && owner.Some? && owner.value.status == RELEASED;
        }
      }
      return false;
    }

    /** os.RemoveAll of the tombstone. */
    method RemoveTombstone(removal: Removal) returns (fault: Option<PurgeFault>)
      requires tombstone.Some?
      modifies this
      ensures Reached(fault, Removed(old(Now()), removal))
    {
      match removal {
        case Whole =>
          tombstone := None;
          return None;
        case CutOff(gone, marker) =>
          var tomb := tombstone.value;
          tombstone := Some(Tomb(tomb.planID, tomb.entries - gone, if marker then None else tomb.marker));
          return Some(RemovalStopped);
      }
    }

    /** CreateVerifiedExport: written aside, verified, and only then linked. */
    method CreateVerifiedExport(entries: Entries, path: string) returns (fault: Option<PurgeFault>)
      requires GoodTools(tools)
      modifies this, workspace
      ensures Reached(fault, Export(tools, old(Now()), entries, path))
      ensures fault.None? ==> path in archives && archives[path] == ArchiveOf(tools, entries)
      ensures workspace.OnDisk() == old(workspace.OnDisk())
    {
      hide Accepted, ArchiveIn, ListingIn, NamespaceSnapshot, Enumerates, Fingerprinted, GoodTools;
      var order := tools.order(entries);
      EnumeratedAreIn(tools, entries);
      if path in archives {
        return Some(ExportExists);
      }
      if Fingerprinted(NamespaceSnapshot(tools, workspace.OnDisk())) != Fingerprinted(entries) {
        return Some(NamespaceChanged);
      }
      var members, listing := ArchiveIn(tools.format, entries, order), ListingIn(entries, order);
      var accepted := VerifyExportArchive(tools.format, members, listing);
      if !accepted {
        return Some(ExportInvalid);
      }
      var refused := workspace.Spend();
      if refused {
        return Some(NoWrite);
      }
      archives := archives[path := members];
      return None;
    }

    method WriteMarker(marker: Marker) returns (fault: Option<PurgeFault>)
      modifies workspace
      ensures Reached(fault, Spent(old(Now()), Marked(tools, old(Now()), marker)))
    {
      var refused := workspace.Spend();
      if refused {
        return Some(NoWrite);
      }
      workspace.files := workspace.files[PURGE_MARKER := File(tools.encode(marker), PRIVATE_FILE_MODE)];
      return None;
    }

    /** The namespace under its new name, with its lock, its live pointer and its bundles. */
    method RenameNamespace(planID: PlanID) returns (fault: Option<PurgeFault>)
      modifies this, workspace
      ensures Reached(fault, Spent(old(Now()), Renamed(tools, old(Now()), planID)))
    {
      var refused := workspace.Spend();
      if refused {
        return Some(NoWrite);
      }
      var files := workspace.files;
      tombstone := Some(Tomb(planID, NamespaceSnapshot(tools, workspace.OnDisk()),
                             if PURGE_MARKER in files && files[PURGE_MARKER].File? then Some(files[PURGE_MARKER].content) else None));
      workspace.files := map p | p in files && p != NAMESPACE && !(INSIDE <= p) :: files[p];
      workspace.locked, workspace.pointer, workspace.bundles := false, None, map[];
      return None;
    }

    /** From the export on. */
    method CommitPurge(marker: Marker, removal: Removal) returns (fault: Option<PurgeFault>)
      modifies this, workspace
      ensures Reached(fault, PurgeExported(tools, old(Now()), marker, removal))
    {
      hide NamespaceSnapshot, Fingerprinted, Renamed;
      fault := WriteMarker(marker);
      if fault.Some? {
        return;
      }
      if Fingerprinted(NamespaceSnapshot(tools, workspace.OnDisk())) != marker.namespaceSHA256 {
        return Some(NamespaceChanged);
      }
      if tombstone.Some? {
        return Some(TombstoneCollision);
      }
      RenamedFacts(tools, Now(), marker.planID);
      fault := RenameNamespace(marker.planID);
      if fault.Some? {
        return;
      }
      fault := RemoveTombstone(removal);
    }

    method PurgeLocked(planID: PlanID, path: string, removal: Removal) returns (fault: Option<PurgeFault>)
      requires GoodTools(tools)
      modifies this, workspace
      ensures Reached(fault, PurgeUnderLock(tools, old(Now()), planID, path, removal))
    {
      hide NamespaceSnapshot, Fingerprinted, Export, GoodTools, PurgeExported, ArchiveOf;
      var entries := NamespaceSnapshot(tools, workspace.OnDisk());
      var marker := Marker(planID, path, Fingerprinted(entries), NoArchive);
      if PURGE_MARKER in workspace.files {
        return Some(MarkerExists);
      }
      fault := WriteMarker(marker);
      if fault.Some? {
        return;
      }
      fault := CreateVerifiedExport(entries, path);
      if fault.Some? {
        return;
      }
      fault := CommitPurge(marker.(archiveSHA256 := ArchiveSHA256(archives[path])), removal);
    }

    /** ApplyPurge after its plan has been applied: the lock, the owner, the purge, and the lock given back. */
    method ApplyPurge(planID: PlanID, path: string, inputs: seq<Input>, removal: Removal) returns (fault: Option<PurgeFault>)
      requires GoodTools(tools)
      modifies this, workspace
      ensures Reached(fault, Purged(tools, old(Now()), planID, path, inputs, removal))
    {
      hide PurgeUnderLock, GoodTools, AcquireLock, ReleasedInput;
      if NAMESPACE !in workspace.files {
        return Some(NoNamespace);
      }
      var refused := workspace.AcquireTransactionLock(false);
      if refused.Some? {
        return Some(Refused(refused.value));
      }
      var released := VerifyReleasedInput(inputs);
      if !released {
        fault := Some(NotReleased);
      } else {
        fault := PurgeLocked(planID, path, removal);
      }
      workspace.locked := false;
    }

    /** ApplyPurgeCleanup: approval, then every piece of evidence again, and only then the removal. */
    method ApplyPurgeCleanup(plan: CleanupPlan, approved: CleanupID, removal: Removal) returns (fault: Option<PurgeFault>)
      modifies this
      ensures Reached(fault, CleanedUp(tools, old(Now()), plan, approved, removal))
      ensures workspace.OnDisk() == old(workspace.OnDisk()) && archives == old(archives)
      ensures tombstone != old(tombstone) ==> approved == CleanupOf(plan) && old(CleanupAllowed(tools, Now(), plan))
    {
      hide FileVerifies, Fingerprinted;
      if approved != CleanupOf(plan) {
        return Some(PlanNotApproved);
      }
      if tombstone.None? || tombstone.value.planID != plan.tombstone {
        return Some(EvidenceDiffers);
      }
      var raw := tombstone.value.marker;
      if raw.None? || tools.read(raw.value).None? || tools.read(raw.value).value.exportPath != plan.exportPath {
        return Some(EvidenceDiffers);
      }
      var marker := tools.read(raw.value).value;
      if HashBytes(raw.value) != plan.markerSHA256 || marker.exportPath !in archives {
        return Some(EvidenceDiffers);
      }
      var exported := VerifyExportFile(tools.format, archives[marker.exportPath]);
      if exported.None? || exported.value != plan.archiveSHA256 || marker.archiveSHA256 != exported.value {
        return Some(EvidenceDiffers);
      }
      if Fingerprinted(tombstone.value.entries) != marker.namespaceSHA256 {
        return Some(EvidenceDiffers);
      }
      fault := RemoveTombstone(removal);
    }
  }

  lemma EnumeratedAreIn(tools: Tools, entries: Entries)
    requires GoodTools(tools)
    ensures forall p :: p in tools.order(entries) ==> p in entries
  {
    assert Enumerates(tools.order(entries), entries);
  }
}
