/** The disk the transaction engine works on, and what each engine call does to it.
    A machine carries out `left` more primitive writes and refuses the next one; quantifying over
    `left` quantifies over every point at which a call can be interrupted. */
module Engine {
  import opened Wrappers
  import opened Records
  import opened Planning
  import opened Transactions

  datatype Node = Directory(mode: nat) | File(content: Bytes, mode: nat)

  /** Workspace entries by logical path; the engine's own records are kept apart, in Disk. */
  type Files = map<string, Node>

  datatype MigrationReceipt = MigrationReceipt(
    from: string, to: string, approvedPlanID: PlanID, completedAt: int,
    resultingHashes: map<string, Digest>, appliedPaths: seq<string>)

  /** The workspace path, the path allow-list of boundary.go, and the receipt encoding. */
  datatype Root = Root(path: string, resolves: string -> bool, encodeReceipt: MigrationReceipt -> Bytes)

  /** .uawp/recovery/ID, or the same directory before the bootstrap rename. */
  datatype BundleDirectory = BundleDirectory(
    plan: Option<PersistedPlan>, journal: Option<Journal>,
    backups: map<nat, Node>, receipt: Option<Receipt>)

  const EMPTY_BUNDLE := BundleDirectory(None, None, map[], None)

  datatype Disk = Disk(
    files: Files, locked: bool, pointer: Option<LivePointer>,
    bundles: map<TransactionID, BundleDirectory>)

  datatype Machine = Machine(disk: Disk, left: nat)

  datatype Fault =
    | NotApproved | WrongWorkspace | UnsafeNamespace | LockHeld | RecoveryRequired | PurgePending
    | InputDrift | BeforeDrift | Unresolvable | UnsafeRecoveryRoot | StagingRefused
    | WriteRefused | BadTransition | TargetExists | TargetMissing | UpdateDrift | UnsupportedChange
    | AfterMismatch | ReceiptPathInvalid | ReceiptCollision | ReceiptExists
    | NoEvidence | EvidenceChanged | RecoveryUnavailable(classification: Classification)

  /** How a call leaves the machine: it went through, or it stopped with a fault. */
  datatype Run = Go(m: Machine) | Halt(m: Machine, fault: Fault) {
    predicate IsFailure() {
      Halt?
    }

    function PropagateFailure(): Run
      requires Halt?
    {
      this
    }

    function Extract(): Machine
      requires Go?
    {
      m
    }
  }

  /** One primitive write that turns the disk into d. */
  function Write(m: Machine, d: Disk): Run {
    if m.left == 0 then Halt(m, WriteRefused) else Go(Machine(d, m.left - 1))
  }

  // ----- Reading -----

  /** Kind and content of the entry at a path. */
  function Look(files: Files, path: string): PathState {
    if path !in files then Missing
    else match files[path]
      case Directory(_) => DirectoryState
      case File(content, _) => FileState(HashBytes(content))
  }

  /** What recovery sees: a file over the record bound reads as unsafe. */
  function Observe(files: Files, path: string): PathState {
    if path in files && files[path].File? && |files[path].content| > MAX_RECORD_BYTES then Unsafe
    else Look(files, path)
  }

  /** An input as recovery sees it: a directory is not a legitimate input here. */
  function ObserveInput(files: Files, path: string): Digest {
    match Observe(files, path)
    case Missing => MissingDigest
    case FileState(sha256) => sha256
    case _ => UnsafeDigest
  }

  predicate InputHolds(files: Files, input: Input) {
    match Look(files, input.path)
    case Missing => input.sha256 == MissingDigest
    case DirectoryState => input.sha256 == DirectoryDigest
    case FileState(sha256) => input.sha256 == sha256
    case Unsafe => false
  }

  /** verifyInputs, and verifyInputsExcept with paths to skip. */
  predicate InputsHold(files: Files, inputs: seq<Input>, skip: set<string>) {
    forall k :: 0 <= k < |inputs| && inputs[k].path !in skip ==> InputHolds(files, inputs[k])
  }

  /** verifyBeforeState for one change; every target that must exist is read as a file. */
  predicate BeforeHolds(root: Root, files: Files, c: Change) {
    && root.resolves(c.path)
    && if c.before == MissingDigest then c.path !in files
       else c.path in files && files[c.path].File? && HashBytes(files[c.path].content) == c.before
  }

  predicate AllBeforeHold(root: Root, files: Files, changes: seq<Change>) {
    forall i :: 0 <= i < |changes| ==> BeforeHolds(root, files, changes[i])
  }

  /** verifyAfterState for one change. */
  predicate AfterHolds(root: Root, files: Files, c: Change) {
    && root.resolves(c.path)
    && match c.kind
       case DeleteFile => c.path !in files
       case DeleteDir => c.path !in files
       case CreateDir => c.path in files && files[c.path].Directory?
       case _ => c.path in files && files[c.path].File? && HashBytes(files[c.path].content) == c.after
  }

  predicate AllAfterHold(root: Root, files: Files, changes: seq<Change>) {
    forall i :: 0 <= i < |changes| ==> AfterHolds(root, files, changes[i])
  }

  function ChangePaths(changes: seq<Change>): set<string> {
    set c | c in changes :: c.path
  }

  // ----- Publishing -----

  /** The files after one change. */
  function Published(files: Files, c: Change): Files {
    match c.kind
    case CreateDir => files[c.path := Directory(c.mode)]
    case CreateFile => files[c.path := File(c.content, c.mode)]
    case UpdateFile => files[c.path := File(c.content, c.mode)]
    case _ => files - {c.path}
  }

  /** Mkdir, link, checked rename or remove: one write, or a refusal that changes nothing. */
  function Publish(m: Machine, c: Change): Run {
    var files := m.disk.files;
    if c.kind.UnknownKind? then Halt(m, UnsupportedChange)
    else if (c.kind == CreateDir || c.kind == CreateFile) && c.path in files then Halt(m, TargetExists)
    else if c.kind == UpdateFile
      && !(c.path in files && files[c.path].File? && HashBytes(files[c.path].content) == c.before) then
      Halt(m, UpdateDrift)
    else if (c.kind == DeleteFile || c.kind == DeleteDir) && c.path !in files then Halt(m, TargetMissing)
    else Write(m, m.disk.(files := Published(files, c)))
  }

  // ----- Bundles -----

  function Stored(d: Disk, id: TransactionID): BundleDirectory {
    if id in d.bundles then d.bundles[id] else EMPTY_BUNDLE
  }

  function Store(d: Disk, id: TransactionID, b: BundleDirectory): Disk {
    d.(bundles := d.bundles[id := b])
  }

  function SetLabel(j: Journal, i: nat, state: ActionState): Journal
    requires i < |j.actions|
  {
    j.(actions := j.actions[i := j.actions[i].(state := state)])
  }

  /** durableTransaction.transition: a checked label move, then one journal replacement. */
  function Transition(m: Machine, j: Journal, i: nat, state: ActionState): Run
    requires i < |j.actions|
  {
    if !CanTransition(j.actions[i].state, state) then Halt(m, BadTransition)
    else
      var id := j.transactionID;
      Write(m, Store(m.disk, id, Stored(m.disk, id).(journal := Some(SetLabel(j, i, state)))))
  }

  function PointerOf(j: Journal): LivePointer {
    LivePointer(SCHEMA_VERSION, j.transactionID, j.operation, j.planID, j.workspace, j.phase)
  }

  // ----- Staging -----

  predicate FitsRecord(files: Files, path: string) {
    path in files && files[path].File? && |files[path].content| <= MAX_RECORD_BYTES
  }

  /** The journal entry staging writes for change i. */
  function StagedAction(files: Files, c: Change, i: nat, bootstrap: bool): Action {
    Action(
      i, c,
      if bootstrap && c.kind == CreateDir && (c.path == NAMESPACE || c.path == RECOVERY_ROOT) then Verified else Pending,
      if NeedsBackup(c) then Some(i) else None,
      if NeedsBackup(c) then c.before else NoDigest,
      if NeedsBackup(c) && c.path in files then files[c.path].mode else 0)
  }

  function StagedJournal(root: Root, files: Files, plan: Plan, started: int, bootstrap: bool): Journal {
    Journal(
      SCHEMA_VERSION, TransactionOf(plan.id, started), plan.operation, plan.id, root.path, Applying, Some(started),
      seq(|plan.changes|, i requires 0 <= i < |plan.changes| => StagedAction(files, plan.changes[i], i, bootstrap)))
  }

  /** Backups for changes i and up: read the target, check it, write the copy with mode 0600. */
  function StageBackups(root: Root, m: Machine, id: TransactionID, changes: seq<Change>, i: nat): Run
    requires i <= |changes|
    decreases |changes| - i
  {
    if i == |changes| then Go(m)
    else if !NeedsBackup(changes[i]) then StageBackups(root, m, id, changes, i + 1)
    else
      var c, files := changes[i], m.disk.files;
      if !root.resolves(c.path) then Halt(m, Unresolvable)
      else if !FitsRecord(files, c.path) || HashBytes(files[c.path].content) != c.before then Halt(m, StagingRefused)
      else
        var b := Stored(m.disk, id);
        var m1 :- Write(m, Store(m.disk, id, b.(backups := b.backups[i := File(files[c.path].content, PRIVATE_FILE_MODE)])));
        StageBackups(root, m1, id, changes, i + 1)
  }

  /** The namespace and recovery directories staging makes visible when they are absent. */
  function StagedFiles(files: Files): Files {
    if NAMESPACE !in files then
      files[NAMESPACE := Directory(PRIVATE_DIRECTORY_MODE)][RECOVERY_ROOT := Directory(PRIVATE_DIRECTORY_MODE)]
    else if RECOVERY_ROOT !in files then files[RECOVERY_ROOT := Directory(PRIVATE_DIRECTORY_MODE)]
    else files
  }

  predicate EncodablePlan(plan: Plan) {
    && Restorable(Persisted(plan))
    && forall c :: c in plan.changes ==> |c.content| <= MAX_RECORD_BYTES
  }

  /** The journal, then the live pointer that makes the transaction live. */
  function StageJournal(m: Machine, journal: Journal, bootstrap: bool): Run {
    var id := journal.transactionID;
    if !ValidJournal(journal) then Halt(m, StagingRefused)
    else
      var m1 :- Write(m, Store(m.disk, id, Stored(m.disk, id).(journal := Some(journal))));
      var m2 :- if bootstrap then Write(m1, m1.disk) else Go(m1);  // the live pointer, still in the bootstrap directory
      Write(m2, m2.disk.(pointer := Some(PointerOf(journal)),
                         files := if bootstrap then StagedFiles(m2.disk.files) else m2.disk.files))
  }

  /** Bundle directory, plan, backups, journal and pointer. */
  function StageRecords(root: Root, m: Machine, plan: Plan, journal: Journal, bootstrap: bool): Run {
    var id := journal.transactionID;
    if id in m.disk.bundles then Halt(m, StagingRefused)
    else
      var m1 :- Write(m, Store(m.disk, id, EMPTY_BUNDLE));
      if !EncodablePlan(plan) then Halt(m1, StagingRefused)
      else
        var m2 :- Write(m1, Store(m1.disk, id, EMPTY_BUNDLE.(plan := Some(Persisted(plan)))));
        var m3 :- StageBackups(root, m2, id, plan.changes, 0);
        StageJournal(m3, journal, bootstrap)
  }

  /** On any staging fault the bundle directory is removed. */
  function Cleaned(r: Run, id: TransactionID): Run {
    if r.Go? then r else Halt(r.m.(disk := r.m.disk.(bundles := r.m.disk.bundles - {id})), r.fault)
  }

  function StageRecoveryRoot(m: Machine, bootstrap: bool): Run {
    if bootstrap then Write(m, m.disk)  // inside the bootstrap directory
    else if RECOVERY_ROOT !in m.disk.files then Write(m, m.disk.(files := StagedFiles(m.disk.files)))
    else if m.disk.files[RECOVERY_ROOT].Directory? then Go(m)
    else Halt(m, UnsafeRecoveryRoot)
  }

  function StageEvidence(root: Root, m: Machine, plan: Plan, journal: Journal, bootstrap: bool): Run {
    var m1 :- StageRecoveryRoot(m, bootstrap);
    StageRecords(root, m1, plan, journal, bootstrap)
  }

  /** prepareDurableTransaction. */
  function Stage(root: Root, m: Machine, plan: Plan, journal: Journal, bootstrap: bool): Run {
    var m1 :- if bootstrap then Write(m, m.disk) else Go(m);  // the bootstrap directory itself
    Cleaned(StageEvidence(root, m1, plan, journal, bootstrap), journal.transactionID)
  }

  // ----- Apply -----

  /** Publication of action i, whose label is IN_PROGRESS, up to its VERIFIED label. */
  function PublishAndRecord(root: Root, m: Machine, c: Change, j: Journal, i: nat): Run
    requires i < |j.actions|
  {
    var m1 :- Publish(m, c);
    var m2 :- Transition(m1, SetLabel(j, i, InProgress), i, Applied);
    if !AfterHolds(root, m2.disk.files, c) then Halt(m2, AfterMismatch)
    else Transition(m2, SetLabel(j, i, Applied), i, Verified)
  }

  /** One turn of Apply's loop. */
  function PublishAction(root: Root, m: Machine, plan: Plan, j: Journal, i: nat): Run
    requires i < |plan.changes| == |j.actions|
  {
    var c := plan.changes[i];
    if !InputsHold(m.disk.files, plan.inputs, ChangePaths(plan.changes[..i])) then Halt(m, InputDrift)
    else if !root.resolves(c.path) then Halt(m, Unresolvable)
    else
      var m1 :- Transition(m, j, i, InProgress);
      PublishAndRecord(root, m1, c, j, i)
  }

  predicate Skipped(j: Journal, i: nat, bootstrap: bool)
    requires i < |j.actions|
  {
    bootstrap && j.actions[i].state == Verified
  }

  function PublishFrom(root: Root, m: Machine, plan: Plan, j: Journal, bootstrap: bool, i: nat): Run
    requires i <= |plan.changes| == |j.actions|
    decreases |plan.changes| - i
  {
    if i == |plan.changes| then Go(m)
    else if Skipped(j, i, bootstrap) then PublishFrom(root, m, plan, j, bootstrap, i + 1)
    else
      var m1 :- PublishAction(root, m, plan, j, i);
      PublishFrom(root, m1, plan, SetLabel(j, i, Verified), bootstrap, i + 1)
  }

  const NANOSECONDS := 1_000_000_000

  /** The after hash of every change that leaves a file. */
  function ReceiptHashes(changes: seq<Change>): map<string, Digest> {
    if changes == [] then map[]
    else
      var c, rest := changes[|changes| - 1], ReceiptHashes(changes[..|changes| - 1]);
      if c.after != MissingDigest && c.after != DirectoryDigest then rest[c.path := c.after] else rest
  }

  function ReceiptFor(planID: PlanID, metadata: Metadata, changes: seq<Change>, at: int): MigrationReceipt {
    MigrationReceipt(
      metadata.migrationFrom, metadata.migrationTo, planID, at / NANOSECONDS, ReceiptHashes(changes),
      seq(|changes|, i requires 0 <= i < |changes| => changes[i].path))
  }

  /** writeMigrationReceipt: an identical receipt is accepted, any other existing entry is a collision. */
  function WriteMigrationReceipt(root: Root, m: Machine, planID: PlanID, metadata: Metadata, changes: seq<Change>,
                                 at: int): Run {
    var path, files := metadata.migrationReceiptPath, m.disk.files;
    if path == "" then Go(m)
    else if !(".uawp/" <= path) || !root.resolves(path) then Halt(m, ReceiptPathInvalid)
    else
      var node := File(root.encodeReceipt(ReceiptFor(planID, metadata, changes, at)), PRIVATE_FILE_MODE);
      if path in files then
        if files[path].File? && files[path].content == node.content then Go(m) else Halt(m, ReceiptCollision)
      else Write(m, m.disk.(files := files[path := node]))
  }

  function WithReceipt(d: Disk, id: TransactionID, receipt: Receipt): Disk {
    Store(d, id, Stored(d, id).(receipt := Some(receipt)))
  }

  function CompletionReceipt(j: Journal, at: int, result: Outcome, hashes: map<string, Digest>): Receipt {
    Receipt(SCHEMA_VERSION, j.transactionID, j.operation, j.planID, at / NANOSECONDS, result, hashes)
  }

  /** durableTransaction.complete. */
  function Complete(root: Root, m: Machine, plan: Plan, j: Journal, finished: int): Run {
    var m1 :- WriteMigrationReceipt(root, m, j.planID, plan.metadata, plan.changes, finished);
    if Stored(m1.disk, j.transactionID).receipt.Some? then Halt(m1, ReceiptExists)
    else
      var receipt := CompletionReceipt(j, finished, Completed, ReceiptHashes(plan.changes));
      var m2 :- Write(m1, WithReceipt(m1.disk, j.transactionID, receipt));
      Write(m2, m2.disk.(pointer := None))
  }

  function ApplyBody(root: Root, m: Machine, plan: Plan, started: int, finished: int): Run {
    var files := m.disk.files;
    if !InputsHold(files, plan.inputs, {}) then Halt(m, InputDrift)
    else if !AllBeforeHold(root, files, plan.changes) then Halt(m, BeforeDrift)
    else if plan.changes == [] then Go(m)
    else
      var bootstrap := NAMESPACE !in files;
      var journal := StagedJournal(root, files, plan, started, bootstrap);
      var m1 :- Stage(root, m, plan, journal, bootstrap);
      var m2 :- PublishFrom(root, m1, plan, journal, bootstrap, 0);
      if !AllAfterHold(root, m2.disk.files, plan.changes) then Halt(m2, AfterMismatch)
      else Complete(root, m2, plan, journal, finished)
  }

  function WithLock(m: Machine, locked: bool): Machine {
    m.(disk := m.disk.(locked := locked))
  }

  function Unlocked(r: Run): Run {
    if r.Go? then Go(WithLock(r.m, false)) else Halt(WithLock(r.m, false), r.fault)
  }

  /** acquireTransactionLock on an existing namespace. */
  function AcquireLock(m: Machine, allowPendingPurge: bool): Run
    requires NAMESPACE in m.disk.files
  {
    if !m.disk.files[NAMESPACE].Directory? then Halt(m, UnsafeNamespace)
    else if m.disk.locked then Halt(m, LockHeld)
    else
      var m1 :- Write(m, m.disk.(locked := true));
      if m1.disk.pointer.Some? then Halt(WithLock(m1, false), RecoveryRequired)
      else if !allowPendingPurge && PURGE_MARKER in m1.disk.files then Halt(WithLock(m1, false), PurgePending)
      else Go(m1)
  }

  /** Apply. */
  function ApplyRun(root: Root, m: Machine, plan: Plan, approved: PlanID, started: int, finished: int): Run {
    if approved == NoPlanID || approved != plan.id then Halt(m, NotApproved)
    else if plan.workspace != root.path then Halt(m, WrongWorkspace)
    else if NAMESPACE !in m.disk.files then ApplyBody(root, m, plan, started, finished)
    else
      var m1 :- AcquireLock(m, plan.operation == "purge-abort");
      Unlocked(ApplyBody(root, m1, plan, started, finished))
  }

  // ----- Recovery -----

  datatype Snapshot = Snapshot(bundle: Bundle, observation: Observation)

  function ObserveBackup(backups: map<nat, Node>, a: Action): BackupState
    requires a.backup.Some?
  {
    if a.backup.value in backups && backups[a.backup.value].File?
      && |backups[a.backup.value].content| <= MAX_RECORD_BYTES then
      var File(content, mode) := backups[a.backup.value];
      BackupState(HashBytes(content) == a.backupSHA256 && mode == a.backupMode, HashBytes(content), mode, content)
    else BackupState(false, HashBytes([]), 0, [])
  }

  function ObserveAll(files: Files, backups: map<nat, Node>, j: Journal, inputs: seq<Input>): Observation {
    var paths := ActionPaths(j.actions);
    Observation(
      map p | p in paths :: Observe(files, p),
      map k | k in inputs && k.path !in paths :: k.path := ObserveInput(files, k.path),
      map i: nat | i < |j.actions| && j.actions[i].backup.Some? :: ObserveBackup(backups, j.actions[i]))
  }

  predicate AllResolve(root: Root, j: Journal, inputs: seq<Input>) {
    && (forall a :: a in j.actions ==> root.resolves(a.change.path))
    && (forall k :: k in inputs && k.path !in ActionPaths(j.actions) ==> root.resolves(k.path))
  }

  /** loadTransactionSnapshot. */
  function LoadSnapshot(root: Root, d: Disk): Result<Snapshot, Fault> {
    if d.pointer.None? || !ValidPointer(d.pointer.value) || d.pointer.value.workspace != root.path then Err(NoEvidence)
    else
      var stored := Stored(d, d.pointer.value.transactionID);
      if stored.journal.None? || stored.plan.None? then Err(NoEvidence)
      else
        var bundle := Bundle(d.pointer.value, stored.journal.value, stored.plan.value, stored.receipt);
        if !ValidBundle(bundle) || !AllResolve(root, bundle.journal, bundle.plan.inputs) then Err(NoEvidence)
        else Ok(Snapshot(bundle, ObserveAll(d.files, stored.backups, bundle.journal, bundle.plan.inputs)))
  }

  function RecoveryOperation(action: RecoveryAction): string {
    if action == Rollback then "transaction-ROLLBACK" else "transaction-CONTINUE"
  }

  function RecoveryMetadata(controllerID: string, reason: string, j: Journal, action: RecoveryAction): Metadata {
    NO_METADATA.(controllerID := controllerID, reason := reason, transactionID := j.transactionID,
                 journalSHA256 := JournalSha256(j), recoveryAction := action)
  }

  function RecoveryChanges(s: Snapshot, action: RecoveryAction): Result<seq<Change>, Fault> {
    var classification := ClassificationOf(s.bundle, s.observation);
    if action == Rollback then
      if classification == BothAvailable then
        Ok(UndoBelow(s.bundle.journal, s.observation, |s.bundle.journal.actions|))
      else Err(RecoveryUnavailable(classification))
    else if classification == BothAvailable || classification == TransactionComplete then
      Ok(Sorting.Sort(RedoFrom(s.bundle.journal, s.observation, 0), BySequence))
    else Err(RecoveryUnavailable(classification))
  }

  /** planTransactionRecovery. */
  function PlanRecovery(root: Root, d: Disk, controllerID: string, reason: string,
                        action: RecoveryAction): Result<Plan, Fault> {
    if controllerID == "" || reason == "" then Err(NotApproved)
    else
      var snapshot :- LoadSnapshot(root, d);
      var changes :- RecoveryChanges(snapshot, action);
      Ok(NewPlan(RecoveryOperation(action), root.path, changes, [],
                 RecoveryMetadata(controllerID, reason, snapshot.bundle.journal, action)))
  }

  function PublishList(root: Root, m: Machine, changes: seq<Change>): Run
    decreases |changes|
  {
    if changes == [] then Go(m)
    else if !root.resolves(changes[0].path) then Halt(m, Unresolvable)
    else
      var m1 :- Publish(m, changes[0]);
      if !AfterHolds(root, m1.disk.files, changes[0]) then Halt(m1, AfterMismatch)
      else PublishList(root, m1, changes[1..])
  }

  /** Migration receipt when continuing, then the transaction receipt, then pointer removal. */
  function FinishRecovery(root: Root, m: Machine, bundle: Bundle, action: RecoveryAction, now: int): Run {
    var j, original := bundle.journal, bundle.plan;
    var m1 :- if action == Continue then
                WriteMigrationReceipt(root, m, j.planID, original.metadata, Canonically(original.changes), now)
              else Go(m);
    var receipt := CompletionReceipt(j, now, if action == Continue then Completed else RolledBackResult, map[]);
    var m2 :- Write(m1, WithReceipt(m1.disk, j.transactionID, receipt));
    if m2.disk.pointer.None? then Halt(m2, NoEvidence) else Write(m2, m2.disk.(pointer := None))
  }

  function RecoveryBody(root: Root, m: Machine, plan: Plan, bundle: Bundle, now: int): Run {
    if !AllBeforeHold(root, m.disk.files, plan.changes) then Halt(m, BeforeDrift)
    else
      var m1 :- PublishList(root, m, plan.changes);
      FinishRecovery(root, m1, bundle, plan.metadata.recoveryAction, now)
  }

  predicate MatchesEvidence(metadata: Metadata, j: Journal) {
    && metadata.transactionID == j.transactionID && metadata.journalSHA256 == JournalSha256(j)
    && metadata.recoveryAction in {Rollback, Continue}
  }

  /** The rest of it, from the lock on, with the bundle loaded before. */
  function RecoverLoaded(root: Root, m: Machine, plan: Plan, bundle: Bundle, now: int): Run {
    if m.disk.locked then Halt(m, LockHeld)
    else
      var m1 :- Write(m, m.disk.(locked := true));
      Unlocked(RecoveryBody(root, m1, plan, bundle, now))
  }

  /** ApplyTransactionRecovery. */
  function RecoveryRun(root: Root, m: Machine, plan: Plan, approved: PlanID, now: int): Run {
    if approved == NoPlanID || approved != plan.id || plan.workspace != root.path then Halt(m, NotApproved)
    else
      var loaded := LoadSnapshot(root, m.disk);
      if loaded.Err? then Halt(m, loaded.error)
      else if !MatchesEvidence(plan.metadata, loaded.value.bundle.journal) then Halt(m, EvidenceChanged)
      else RecoverLoaded(root, m, plan, loaded.value.bundle, now)
  }

  /** What the command line does: plan from the disk as it is, then run that plan. */
  function Recover(root: Root, m: Machine, controllerID: string, reason: string, action: RecoveryAction,
                   now: int): Run {
    var plan := PlanRecovery(root, m.disk, controllerID, reason, action);
    if plan.Err? then Halt(m, plan.error) else RecoveryRun(root, m, plan.value, plan.value.id, now)
  }
}
