/** internal/workspace/purge.go: marker, verified export, rename, removal; and the abort and cleanup that follow an
    interruption. The abort is an Apply of its own, which can be cut off and recovered like any other. */
module Purges {
  import opened Wrappers
  import opened Records
  import opened Planning
  import opened Engine
  import opened Ownerships
  import opened Lifecycle
  import opened Archives

  const INSIDE := ".uawp/"

  /** The hash of a listing, as a free constructor. */
  datatype Fingerprint = FingerprintOf(listing: map<string, Listed>)

  datatype Marker = Marker(planID: PlanID, exportPath: string, namespaceSHA256: Fingerprint, archiveSHA256: ArchiveDigest)

  /** What this model leaves open: the archive's format, the order the walk lists entries in, how the engine's own records
      lie under .uawp, and the marker's encoding. */
  datatype Tools = Tools(
    format: Format, order: Entries -> seq<string>,
    records: (Option<LivePointer>, map<TransactionID, BundleDirectory>) -> Entries, isRecord: string -> bool,
    encode: Marker -> Bytes, read: Bytes -> Option<Marker>)

  predicate Within(a: Entries, b: Entries) {
    forall p :: p in a ==> p in b && b[p] == a[p]
  }

  predicate SomeBundles(b: map<TransactionID, BundleDirectory>, b': map<TransactionID, BundleDirectory>) {
    forall id :: id in b ==> id in b' && b'[id] == b[id]
  }

  ghost predicate GoodTools(tools: Tools) {
    && (forall e :: Enumerates(tools.order(e), e))
    && (forall p, b :: Plain(tools.records(p, b)) && forall q :: q in tools.records(p, b) ==> tools.isRecord(q))
    && (forall p, b, b' :: SomeBundles(b, b') ==> Within(tools.records(None, b), tools.records(p, b')))
    && (forall m :: tools.read(tools.encode(m)) == Some(m))
    && GoodFormat(tools.format)
  }

  predicate Plain(entries: Entries) {
    PlainPaths(entries) && "" !in entries
  }

  // ----- Snapshots -----

  /** A path the walk lists that is no record of the engine: neither the lock nor the marker is one. */
  predicate Listable(tools: Tools, path: string) {
    INSIDE <= path && |path| > |INSIDE| && path != PURGE_MARKER && !tools.isRecord(path[|INSIDE|..])
  }

  function EntryAt(files: Files, q: string): Node {
    if INSIDE + q in files then files[INSIDE + q] else Directory(0)
  }

  /** The workspace entries under .uawp, by relative path. */
  function InsideFiles(tools: Tools, files: Files): Entries {
    map q | q in (set p | p in files && Listable(tools, p) :: p[|INSIDE|..]) :: EntryAt(files, q)
  }

  /** snapshotDirectory of .uawp. */
  function NamespaceSnapshot(tools: Tools, d: Disk): Entries {
    InsideFiles(tools, d.files) + tools.records(d.pointer, d.bundles)
  }

  function ListingMap(entries: Entries): map<string, Listed> {
    map p | p in entries :: ListedOf(entries[p])
  }

  function Fingerprinted(entries: Entries): Fingerprint {
    FingerprintOf(ListingMap(entries))
  }

  // ----- The state and its steps -----

  /** The renamed namespace, by what a later snapshot of it shows, and the marker file in it. */
  datatype Tomb = Tomb(planID: PlanID, entries: Entries, marker: Option<Bytes>)

  /** The workspace, its tombstone, and the archives outside. */
  datatype State = State(disk: Disk, tombstone: Option<Tomb>, archives: map<string, seq<Member>>, left: nat)

  datatype PurgeFault =
    | NoNamespace | Refused(fault: Fault) | NotReleased | NoWrite | MarkerExists | ExportExists | ExportInvalid
    | NamespaceChanged | TombstoneCollision | RemovalStopped | PlanNotApproved | EvidenceDiffers

  datatype PurgeRun = Done(s: State) | Stopped(s: State, fault: PurgeFault) {
    predicate IsFailure() {
      Stopped?
    }

    function PropagateFailure(): PurgeRun
      requires Stopped?
    {
      this
    }

    function Extract(): State
      requires Done?
    {
      s
    }
  }

  function Spent(s: State, next: State): PurgeRun {
    if s.left == 0 then Stopped(s, NoWrite) else Done(next.(left := s.left - 1))
  }

  function WithFiles(s: State, files: Files): State {
    s.(disk := s.disk.(files := files))
  }

  function Marked(tools: Tools, s: State, marker: Marker): State {
    WithFiles(s, s.disk.files[PURGE_MARKER := File(tools.encode(marker), PRIVATE_FILE_MODE)])
  }

  /** How far os.RemoveAll gets: through, or stopped with some entries gone, and perhaps the marker. */
  datatype Removal = Whole | CutOff(gone: set<string>, marker: bool)

  function Removed(s: State, removal: Removal): PurgeRun
    requires s.tombstone.Some?
  {
    match removal
    case Whole => Done(s.(tombstone := None))
    case CutOff(gone, marker) =>
      var tomb := s.tombstone.value;
      Stopped(s.(tombstone := Some(Tomb(tomb.planID, tomb.entries - gone, if marker then None else tomb.marker))), RemovalStopped)
  }

  function Unlock(o: PurgeRun): PurgeRun {
    var s := o.s.(disk := o.s.disk.(locked := false));
    if o.Done? then Done(s) else Stopped(s, o.fault)
  }

  /** CreateVerifiedExport: nothing is published that verifyExportArchive would refuse. */
  ghost function Export(tools: Tools, s: State, entries: Entries, path: string): PurgeRun
    requires GoodTools(tools)
  {
    var order := tools.order(entries);
    assert Enumerates(order, entries);
    var members := ArchiveIn(tools.format, entries, order);
    if path in s.archives then Stopped(s, ExportExists)
    else if Fingerprinted(NamespaceSnapshot(tools, s.disk)) != Fingerprinted(entries) then Stopped(s, NamespaceChanged)
    else if !Accepted(tools.format, members, ListingIn(entries, order)) then Stopped(s, ExportInvalid)
    else Spent(s, s.(archives := s.archives[path := members]))
  }

  /** .uawp under its new name: the workspace keeps what lies outside. */
  function Renamed(tools: Tools, s: State, planID: PlanID): State {
    var files := s.disk.files;
    s.(disk := Disk(map p | p in files && p != NAMESPACE && !(INSIDE <= p) :: files[p], false, None, map[]),
       tombstone := Some(Tomb(planID, NamespaceSnapshot(tools, s.disk),
                              if PURGE_MARKER in files && files[PURGE_MARKER].File? then Some(files[PURGE_MARKER].content) else None)))
  }

  /** After the export: the completed marker, the rename, and the removal. */
  function PurgeExported(tools: Tools, s: State, marker: Marker, removal: Removal): PurgeRun {
    var s3 :- Spent(s, Marked(tools, s, marker));
    if Fingerprinted(NamespaceSnapshot(tools, s3.disk)) != marker.namespaceSHA256 then Stopped(s3, NamespaceChanged)
    else if s3.tombstone.Some? then Stopped(s3, TombstoneCollision)
    else
      var s4 :- Spent(s3, Renamed(tools, s3, marker.planID));
      Removed(s4, removal)
  }

  /** From the marker on, with the lock held. */
  ghost function PurgeUnderLock(tools: Tools, s: State, planID: PlanID, path: string, removal: Removal): PurgeRun
    requires GoodTools(tools)
  {
    var entries := NamespaceSnapshot(tools, s.disk);
    var marker := Marker(planID, path, Fingerprinted(entries), NoArchive);
    if PURGE_MARKER in s.disk.files then Stopped(s, MarkerExists)
    else
      var s1 :- Spent(s, Marked(tools, s, marker));
      var s2 :- Export(tools, s1, entries, path);
      PurgeExported(tools, s2, marker.(archiveSHA256 := ArchiveSHA256(ArchiveOf(tools, entries))), removal)
  }

  /** The archive made of these entries. */
  ghost function ArchiveOf(tools: Tools, entries: Entries): seq<Member>
    requires GoodTools(tools)
  {
    assert Enumerates(tools.order(entries), entries);
    ArchiveIn(tools.format, entries, tools.order(entries))
  }

  /** verifyReleasedInput: the first ownership input still holds, and the owner is released. */
  function OwnerInput(inputs: seq<Input>): Option<Input> {
    if inputs == [] then None else if inputs[0].path == OWNER_PATH then Some(inputs[0]) else OwnerInput(inputs[1..])
  }

  predicate ReleasedInput(files: Files, inputs: seq<Input>) {
    && OwnerInput(inputs).Some? && InputHolds(files, OwnerInput(inputs).value)
    && OwnerOf(files).Some? && OwnerOf(files).value.status == RELEASED
  }

  /** ApplyPurge after its plan has been applied. */
  ghost function Purged(tools: Tools, s: State, planID: PlanID, path: string, inputs: seq<Input>, removal: Removal): PurgeRun
    requires GoodTools(tools)
  {
    if NAMESPACE !in s.disk.files then Stopped(s, NoNamespace)
    else
      var r := AcquireLock(Machine(s.disk, s.left), false);
      var s1 := s.(disk := r.m.disk, left := r.m.left);
      if r.Halt? then Stopped(s1, Refused(r.fault))
      else if !ReleasedInput(s1.disk.files, inputs) then Unlock(Stopped(s1, NotReleased))
      else Unlock(PurgeUnderLock(tools, s1, planID, path, removal))
  }

  // ----- Abort and cleanup -----

  function MarkerIn(tools: Tools, files: Files): Option<Marker> {
    if PURGE_MARKER in files && files[PURGE_MARKER].File? then tools.read(files[PURGE_MARKER].content) else None
  }

  /** PlanPurgeAbortAt: one change, that the marker goes. */
  function PlanPurgeAbort(tools: Tools, root: Root, files: Files, controllerID: string, reason: string): Option<Plan> {
    if controllerID == "" || reason == "" || MarkerIn(tools, files).None? then None
    else
      Some(NewPlan("purge-abort", root.path, [NewDeleteFile(PURGE_MARKER, HashBytes(files[PURGE_MARKER].content))], [],
                   NO_METADATA.(controllerID := controllerID, reason := reason, recoveryAction := Rollback)))
  }

  /** The abort as the command line does it: planned from the files as they are, and applied, up to the last write it gets. */
  function Aborted(tools: Tools, root: Root, s: State, controllerID: string, reason: string, started: int, finished: int): State {
    var plan := PlanPurgeAbort(tools, root, s.disk.files, controllerID, reason);
    if plan.None? then s
    else
      var r := ApplyRun(root, Machine(s.disk, s.left), plan.value, plan.value.id, started, finished);
      s.(disk := r.m.disk, left := r.m.left)
  }

  /** A cleanup plan has no changes; its metadata is the evidence it was made from. */
  datatype CleanupPlan = CleanupPlan(
    controllerID: string, reason: string, tombstone: PlanID, exportPath: string, archiveSHA256: ArchiveDigest, markerSHA256: Digest)

  datatype CleanupID = NoCleanup | CleanupOf(plan: CleanupPlan)

  /** The tombstone's marker, read. */
  function TombMarker(tools: Tools, s: State): Option<Marker> {
    if s.tombstone.None? || s.tombstone.value.marker.None? then None else tools.read(s.tombstone.value.marker.value)
  }

  /** The archive the marker names verifies by itself and is the marker's, and the tombstone is what the marker describes. */
  ghost predicate TombVerifies(tools: Tools, s: State) {
    && TombMarker(tools, s).Some?
    && var marker := TombMarker(tools, s).value;
      && marker.exportPath in s.archives && FileVerifies(tools.format, s.archives[marker.exportPath])
      && marker.archiveSHA256 == ArchiveSHA256(s.archives[marker.exportPath])
      && Fingerprinted(s.tombstone.value.entries) == marker.namespaceSHA256
  }

  /** PlanPurgeCleanupAt. */
  ghost function PlanCleanup(tools: Tools, s: State, controllerID: string, reason: string): Option<CleanupPlan> {
    if controllerID == "" || reason == "" || !TombVerifies(tools, s) then None
    else
      var marker := TombMarker(tools, s).value;
      Some(CleanupPlan(controllerID, reason, s.tombstone.value.planID, marker.exportPath, marker.archiveSHA256,
                       HashBytes(s.tombstone.value.marker.value)))
  }

  /** What ApplyPurgeCleanup checks of a plan, however old. */
  ghost predicate CleanupAllowed(tools: Tools, s: State, plan: CleanupPlan) {
    && TombVerifies(tools, s)
    && var marker := TombMarker(tools, s).value;
      && s.tombstone.value.planID == plan.tombstone && marker.exportPath == plan.exportPath
      && HashBytes(s.tombstone.value.marker.value) == plan.markerSHA256 && marker.archiveSHA256 == plan.archiveSHA256
  }

  /** ApplyPurgeCleanup. */
  ghost function CleanedUp(tools: Tools, s: State, plan: CleanupPlan, approved: CleanupID, removal: Removal): PurgeRun {
    if approved != CleanupOf(plan) then Stopped(s, PlanNotApproved)
    else if !CleanupAllowed(tools, s, plan) then Stopped(s, EvidenceDiffers)
    else Removed(s, removal)
  }
}
