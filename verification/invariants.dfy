/** What a live transaction keeps: the evidence in its bundle and the files it has or has not published. */
module Invariants {
  import opened Wrappers
  import opened Records
  import opened Planning
  import opened Transactions
  import opened Engine

  /** One transaction: its plan, the journal as staged, and the files before it began. */
  datatype Txn = Txn(root: Root, plan: Plan, journal: Journal, origin: Files, bootstrap: bool) {
    ghost function ID(): TransactionID {
      journal.transactionID
    }

    ghost function Size(): nat {
      |plan.changes|
    }
  }

  /** A parent directory exists wherever its recovery directory does. */
  ghost predicate ProperTree(files: Files) {
    RECOVERY_ROOT in files ==> NAMESPACE in files
  }

  /** What planners guarantee of a plan: files are created only where nothing is, never where staging
      makes a directory, the migration receipt is neither target nor input, and sort keys are distinct. */
  ghost predicate WellFormed(plan: Plan) {
    && Canonical(plan)
    && DistinctKeys(plan.changes)
    && (forall c :: c in plan.changes ==>
          && (c.kind == CreateFile ==> c.before == MissingDigest && c.path != NAMESPACE && c.path != RECOVERY_ROOT)
          && c.path != plan.metadata.migrationReceiptPath)
    && (forall k :: k in plan.inputs ==> k.path != plan.metadata.migrationReceiptPath)
  }

  /** A change whose before check leaves its publication nothing to trip over. */
  predicate Publishable(c: Change) {
    && RestorableChange(c)
    && c.kind != DeleteDir
    && (c.kind == CreateFile ==> c.before == MissingDigest)
    && (NeedsBackup(c) ==> c.before.Sha256?)
  }

  lemma BeforeHoldsMeansBefore(root: Root, files: Files, c: Change)
    requires Publishable(c)
    ensures BeforeHolds(root, files, c) <==> root.resolves(c.path) && Look(files, c.path) == BeforeState(c)
  {
    match c.kind {
      case CreateDir =>
      case CreateFile =>
      case UpdateFile =>
      case DeleteFile =>
    }
  }

  lemma AfterHoldsMeansAfter(root: Root, files: Files, c: Change)
    requires RestorableChange(c)
    ensures AfterHolds(root, files, c) <==> root.resolves(c.path) && Look(files, c.path) == AfterState(c)
  {
    match c.kind {
      case CreateDir =>
      case CreateFile =>
      case UpdateFile =>
      case DeleteFile =>
      case DeleteDir =>
    }
  }

  /** Publishing turns before into after, touches no other path, and stops only if the write is refused. */
  lemma PublishMovesOnePath(m: Machine, c: Change)
    requires Publishable(c) && Look(m.disk.files, c.path) == BeforeState(c)
    ensures var r := Publish(m, c);
      && (r.Go? <==> m.left > 0)
      && (r.Halt? ==> r == Halt(m, WriteRefused))
      && (r.Go? ==>
           && r.m == Machine(m.disk.(files := Published(m.disk.files, c)), m.left - 1)
           && Look(r.m.disk.files, c.path) == AfterState(c)
           && forall q :: q != c.path ==> Get(r.m.disk.files, q) == Get(m.disk.files, q))
  {
    match c.kind {
      case CreateDir =>
      case CreateFile =>
      case UpdateFile =>
      case DeleteFile =>
    }
  }

  lemma SameEntrySameLook(files: Files, files': Files, path: string)
    requires Get(files, path) == Get(files', path)
    ensures Look(files, path) == Look(files', path)
    ensures Observe(files, path) == Observe(files', path)
  {
  }

  /** Everything Apply established before it published the live pointer. */
  ghost predicate Sound(t: Txn) {
    && t.Size() > 0 && ProperTree(t.origin) && t.bootstrap == (NAMESPACE !in t.origin)
    && WellFormed(t.plan) && EncodablePlan(t.plan) && t.plan.workspace == t.root.path
    && (exists started :: t.journal == StagedJournal(t.root, t.origin, t.plan, started, t.bootstrap))
    && ValidJournal(t.journal)
    && InputsHold(t.origin, t.plan.inputs, {})
    && (forall i :: 0 <= i < t.Size() ==> SoundChange(t, t.plan.changes[i]))
  }

  ghost predicate SoundChange(t: Txn, c: Change) {
    && Publishable(c) && t.root.resolves(c.path)
    && Look(t.origin, c.path) == BeforeState(c)
    && |c.content| <= MAX_RECORD_BYTES
    && (NeedsBackup(c) ==> FitsRecord(t.origin, c.path))
  }

  ghost predicate DistinctPaths(changes: seq<Change>) {
    forall i, k :: 0 <= i < k < |changes| ==> changes[i].path != changes[k].path
  }

  /** The parts of Sound that lemmas use, without its definition. */
  lemma SoundFacts(t: Txn)
    requires Sound(t)
    ensures |t.journal.actions| == t.Size() > 0
    ensures forall i :: 0 <= i < t.Size() ==> t.journal.actions[i] == StagedAction(t.origin, t.plan.changes[i], i, t.bootstrap)
    ensures DistinctPaths(t.plan.changes)
    ensures t.journal.transactionID != NoTransaction && t.journal.workspace == t.root.path
    ensures t.journal.operation == t.plan.operation && t.journal.planID == t.plan.id
    ensures ValidPointer(PointerOf(t.journal)) && ValidJournal(t.journal)
    ensures PlanAgrees(Persisted(t.plan), t.journal)
  {
    hide Restorable, WellFormed, InputsHold, SoundChange, ProperTree;
    forall i, k | 0 <= i < k < t.Size()
      ensures t.plan.changes[i].path != t.plan.changes[k].path
    {
      assert t.journal.actions[i].change.path != t.journal.actions[k].change.path;
    }
  }

  ghost predicate GoodBackup(t: Txn, b: BundleDirectory, i: nat)
    requires i < t.Size()
  {
    var path := t.plan.changes[i].path;
    NeedsBackup(t.plan.changes[i]) ==>
      && path in t.origin && t.origin[path].File?
      && i in b.backups && b.backups[i] == File(t.origin[path].content, PRIVATE_FILE_MODE)
  }

  /** The bundle still holds the plan, the journal up to labels, and every backup. */
  ghost predicate BundleKept(t: Txn, b: BundleDirectory) {
    && b.plan == Some(Persisted(t.plan))
    && b.journal.Some? && SameButLabels(t.journal, b.journal.value)
    && (b.receipt.Some? ==> ValidReceiptFor(b.receipt.value, t.journal))
    && forall i :: 0 <= i < t.Size() ==> GoodBackup(t, b, i)
  }

  /** The live pointer is the transaction's and its bundle is intact. */
  ghost predicate Live(t: Txn, d: Disk) {
    && d.pointer == Some(PointerOf(t.journal))
    && t.ID() in d.bundles && BundleKept(t, d.bundles[t.ID()])
  }

  /** Every action path is in its before state or its after state. */
  ghost predicate EitherWay(t: Txn, files: Files) {
    forall i :: 0 <= i < t.Size() ==>
      Look(files, t.plan.changes[i].path) in {BeforeState(t.plan.changes[i]), AfterState(t.plan.changes[i])}
  }

  ghost predicate AllBeforeState(t: Txn, files: Files) {
    forall i :: 0 <= i < t.Size() ==> Look(files, t.plan.changes[i].path) == BeforeState(t.plan.changes[i])
  }

  ghost predicate AllAfterState(t: Txn, files: Files) {
    forall i :: 0 <= i < t.Size() ==> Look(files, t.plan.changes[i].path) == AfterState(t.plan.changes[i])
  }

  /** The first k changes are published, and no other. */
  ghost predicate AtPrefix(t: Txn, files: Files, k: nat) {
    && k <= t.Size()
    && (forall i :: 0 <= i < k ==> Look(files, t.plan.changes[i].path) == AfterState(t.plan.changes[i]))
    && (forall i :: k <= i < t.Size() ==> Look(files, t.plan.changes[i].path) == BeforeState(t.plan.changes[i]))
  }

  /** No path outside the plan has changed, but for what staging shows and the migration receipt. */
  ghost predicate Framed(t: Txn, files: Files) {
    forall q :: q !in ChangePaths(t.plan.changes) && q != t.plan.metadata.migrationReceiptPath ==>
      Get(files, q) == Get(StagedFiles(t.origin), q)
  }

  /** The invariant of an unfinished transaction. */
  ghost predicate Holds(t: Txn, d: Disk) {
    Live(t, d) && EitherWay(t, d.files) && Framed(t, d.files)
  }

  /** Every input outside the plan's paths can be looked up again. */
  predicate InputsResolve(root: Root, plan: Plan) {
    forall k :: k in plan.inputs && k.path !in ChangePaths(plan.changes) ==> root.resolves(k.path)
  }

  /** Every file to be backed up has the mode backups are written with. */
  predicate ModesPrivate(files: Files, plan: Plan) {
    forall i :: 0 <= i < |plan.changes| ==> ModePrivate(files, plan.changes[i])
  }

  predicate ModePrivate(files: Files, c: Change) {
    NeedsBackup(c) && c.path in files ==> files[c.path].mode == PRIVATE_FILE_MODE
  }

  /** Every outside input reads to recovery as it did to the plan; a directory input never does. */
  predicate InputsReadSame(files: Files, plan: Plan) {
    forall k :: 0 <= k < |plan.inputs| && plan.inputs[k].path !in ChangePaths(plan.changes) ==>
      ObserveInput(StagedFiles(files), plan.inputs[k].path) == plan.inputs[k].sha256
  }

  /** What a caller can check before Apply to know that recovery will not need a human. */
  predicate RecoverySafe(files: Files, plan: Plan) {
    ModesPrivate(files, plan) && InputsReadSame(files, plan)
  }

  /** Staging makes no action path or input path appear on an initialised workspace. */
  predicate Foreseen(files: Files, plan: Plan) {
    && NAMESPACE in files
    && (RECOVERY_ROOT !in files ==>
          && RECOVERY_ROOT !in ChangePaths(plan.changes)
          && forall k :: 0 <= k < |plan.inputs| ==> plan.inputs[k].path != RECOVERY_ROOT)
  }

  lemma ChangePathIndex(changes: seq<Change>, q: string) returns (i: nat)
    requires q in ChangePaths(changes)
    ensures i < |changes| && changes[i].path == q
  {
    i :| 0 <= i < |changes| && changes[i].path == q;
  }
}
