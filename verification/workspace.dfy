/** The transaction engine as it runs: a workspace updated in place, a durable transaction that owns its
    journal, and the loops of Apply and recovery, each proved to do what the engine functions say. */
module Workspaces {
  import opened Wrappers
  import opened Records
  import opened Planning
  import opened Transactions
  import opened Engine

  /** An action whose directory the bootstrap rename has made already. */
  function Bootstrapped(a: Action): Action {
    if a.change.kind == CreateDir && a.change.path in {NAMESPACE, RECOVERY_ROOT} then a.(state := Verified) else a
  }

  /** Staging reads the targets after it made the recovery directory; no copy depends on that. */
  lemma StagedActionsAgree(files: Files, staged: Files, changes: seq<Change>, actions: seq<Action>,
                           marked: seq<Action>, bootstrap: bool)
    requires |actions| == |changes| == |marked| && (staged == files || staged == StagedFiles(files))
    requires forall k :: 0 <= k < |changes| && NeedsBackup(changes[k]) ==> FitsRecord(staged, changes[k].path)
    requires forall k :: 0 <= k < |changes| ==> actions[k] == StagedAction(staged, changes[k], k, false)
    requires forall k :: 0 <= k < |changes| ==> marked[k] == if bootstrap then Bootstrapped(actions[k]) else actions[k]
    ensures forall k :: 0 <= k < |changes| ==> marked[k] == StagedAction(files, changes[k], k, bootstrap)
  {
    forall k | 0 <= k < |changes|
      ensures marked[k] == StagedAction(files, changes[k], k, bootstrap)
    {
      if NeedsBackup(changes[k]) {
        assert FitsRecord(staged, changes[k].path);
      }
    }
  }

  class Workspace {
    const root: Root
    var files: Files
    var locked: bool
    var pointer: Option<LivePointer>
    var bundles: map<TransactionID, BundleDirectory>
    /** Primitive writes the process still gets before it is cut off. */
    var left: nat

    constructor (root: Root, disk: Disk, left: nat)
      ensures this.root == root && State() == Machine(disk, left)
    {
      this.root := root;
      this.files, this.locked, this.pointer, this.bundles := disk.files, disk.locked, disk.pointer, disk.bundles;
      this.left := left;
    }

    function OnDisk(): Disk
      reads this
    {
      Disk(files, locked, pointer, bundles)
    }

    function State(): Machine
      reads this
    {
      Machine(OnDisk(), left)
    }

    /** A call that started with this run expected of it has ended with the given fault, or none. */
    ghost predicate Ended(fault: Option<Fault>, run: Run)
      reads this
    {
      State() == run.m && fault == (if run.Halt? then Some(run.fault) else None)
    }

    /** Every primitive write asks first; the budget is what interrupts a run. */
    method Spend() returns (refused: bool)
      modifies this`left
      ensures refused <==> old(left) == 0
      ensures left == if refused then 0 else old(left) - 1
    {
      refused := left == 0;
      if !refused {
        left := left - 1;
      }
    }

    // ----- Reading loops -----

    method VerifyInputsExcept(inputs: seq<Input>, skip: set<string>) returns (ok: bool)
      ensures ok <==> InputsHold(files, inputs, skip)
    {
      for k := 0 to |inputs|
        invariant forall i :: 0 <= i < k && inputs[i].path !in skip ==> InputHolds(files, inputs[i])
      {
        if inputs[k].path !in skip && !InputHolds(files, inputs[k]) {
          return false;
        }
      }
      return true;
    }

    method VerifyBeforeState(changes: seq<Change>) returns (ok: bool)
      ensures ok <==> AllBeforeHold(root, files, changes)
    {
      for i := 0 to |changes|
        invariant forall k :: 0 <= k < i ==> BeforeHolds(root, files, changes[k])
      {
        if !BeforeHolds(root, files, changes[i]) {
          return false;
        }
      }
      return true;
    }

    method VerifyAfterState(changes: seq<Change>) returns (ok: bool)
      ensures ok <==> AllAfterHold(root, files, changes)
    {
      for i := 0 to |changes|
        invariant forall k :: 0 <= k < i ==> AfterHolds(root, files, changes[k])
      {
        if !AfterHolds(root, files, changes[i]) {
          return false;
        }
      }
      return true;
    }

    // ----- One publication -----

    method PublishChange(c: Change) returns (fault: Option<Fault>)
      modifies this
      ensures Ended(fault, Publish(old(State()), c))
      ensures fault.Some? ==> OnDisk() == old(OnDisk())
      ensures fault.None? ==> OnDisk() == old(OnDisk()).(files := files)
      ensures fault.None? ==> forall q :: q != c.path ==> Get(files, q) == Get(old(files), q)
      ensures fault.None? && RestorableChange(c) ==> Look(files, c.path) == AfterState(c)
      ensures fault.None? && c.kind in {CreateDir, CreateFile} ==> Look(old(files), c.path) == Missing
      ensures fault.None? && c.kind == UpdateFile ==> Look(old(files), c.path) == FileState(c.before)
      ensures fault.None? && c.kind in {DeleteFile, DeleteDir} ==> Look(old(files), c.path) != Missing
    {
      match c.kind {
        case CreateDir =>
          if c.path in files {
            return Some(TargetExists);
          }
        case CreateFile =>
          if c.path in files {
            return Some(TargetExists);
          }
        case UpdateFile =>
          if c.path !in files || !files[c.path].File? || HashBytes(files[c.path].content) != c.before {
            return Some(UpdateDrift);
          }
        case DeleteFile =>
          if c.path !in files {
            return Some(TargetMissing);
          }
        case DeleteDir =>
          if c.path !in files {
            return Some(TargetMissing);
          }
        case UnknownKind(_) =>
          return Some(UnsupportedChange);
      }
      var refused := Spend();
      if refused {
        return Some(WriteRefused);
      }
      if c.kind == CreateDir {
        files := files[c.path := Directory(c.mode)];
      } else if c.kind == CreateFile || c.kind == UpdateFile {
        files := files[c.path := File(c.content, c.mode)];
      } else {
        files := files - {c.path};
      }
      return None;
    }

    /** One replacement of a bundle's records. */
    method WriteBundle(id: TransactionID, b: BundleDirectory) returns (fault: Option<Fault>)
      modifies this
      ensures Ended(fault, Write(old(State()), Store(old(OnDisk()), id, b)))
    {
      var refused := Spend();
      if refused {
        return Some(WriteRefused);
      }
      bundles := bundles[id := b];
      return None;
    }

    // ----- Staging -----

    /** The loop that copies every update and delete target and fills in the actions. */
    method StageActions(id: TransactionID, changes: seq<Change>) returns (fault: Option<Fault>, actions: seq<Action>)
      modifies this
      ensures Ended(fault, StageBackups(root, old(State()), id, changes, 0))
      ensures files == old(files)
      ensures fault.None? ==> |actions| == |changes|
      ensures fault.None? ==> forall k :: 0 <= k < |changes| ==> actions[k] == StagedAction(files, changes[k], k, false)
      ensures fault.None? ==> forall k :: 0 <= k < |changes| && NeedsBackup(changes[k]) ==> FitsRecord(files, changes[k].path)
    {
      actions := [];
      for i := 0 to |changes|
        invariant files == old(files) && |actions| == i
        invariant StageBackups(root, old(State()), id, changes, 0) == StageBackups(root, State(), id, changes, i)
        invariant forall k :: 0 <= k < i ==> actions[k] == StagedAction(files, changes[k], k, false)
        invariant forall k :: 0 <= k < i && NeedsBackup(changes[k]) ==> FitsRecord(files, changes[k].path)
      {
        var c := changes[i];
        var action := Action(i, c, Pending, None, NoDigest, 0);
        if NeedsBackup(c) {
          if !root.resolves(c.path) {
            return Some(Unresolvable), actions;
          }
          if !FitsRecord(files, c.path) || HashBytes(files[c.path].content) != c.before {
            return Some(StagingRefused), actions;
          }
          var content := files[c.path].content;
          action := action.(backup := Some(i), backupSHA256 := HashBytes(content), backupMode := files[c.path].mode);
          var b := Stored(OnDisk(), id);
          var refused := WriteBundle(id, b.(backups := b.backups[i := File(content, PRIVATE_FILE_MODE)]));
          if refused.Some? {
            return refused, actions;
          }
        }
        actions := actions + [action];
      }
      return None, actions;
    }

    /** The bootstrap marks of an absent namespace: two directories are there before the first action. */
    method MarkBootstrap(actions: seq<Action>) returns (marked: seq<Action>)
      ensures |marked| == |actions|
      ensures forall k :: 0 <= k < |actions| ==> marked[k] == Bootstrapped(actions[k])
    {
      marked := actions;
      for i := 0 to |actions|
        invariant |marked| == |actions|
        invariant forall k :: i <= k < |actions| ==> marked[k] == actions[k]
        invariant forall k :: 0 <= k < i ==> marked[k] == Bootstrapped(actions[k])
      {
        var c := marked[i].change;
        if c.kind == CreateDir && (c.path == NAMESPACE || c.path == RECOVERY_ROOT) {
          marked := marked[i := marked[i].(state := Verified)];
        }
      }
    }

    method StageRoot(bootstrap: bool) returns (fault: Option<Fault>)
      requires bootstrap == (NAMESPACE !in files)
      modifies this
      ensures Ended(fault, StageRecoveryRoot(old(State()), bootstrap))
    {
      if !bootstrap && RECOVERY_ROOT in files {
        return if files[RECOVERY_ROOT].Directory? then None else Some(UnsafeRecoveryRoot);
      }
      var refused := Spend();
      if refused {
        return Some(WriteRefused);
      }
      if !bootstrap {
        files := files[RECOVERY_ROOT := Directory(PRIVATE_DIRECTORY_MODE)];
      }
      return None;
    }

    /** Journal first, pointer last: the live pointer is what makes the transaction live. */
    method PublishPointer(journal: Journal, bootstrap: bool) returns (fault: Option<Fault>)
      requires bootstrap ==> NAMESPACE !in files
      modifies this
      ensures Ended(fault, StageJournal(old(State()), journal, bootstrap))
    {
      hide ValidJournal;
      var valid := ValidateJournal(journal);
      if !valid {
        return Some(StagingRefused);
      }
      var id := journal.transactionID;
      fault := WriteBundle(id, Stored(OnDisk(), id).(journal := Some(journal)));
      if fault.Some? {
        return;
      }
      if bootstrap {
        var early := Spend();
        if early {
          return Some(WriteRefused);
        }
      }
      var refused := Spend();
      if refused {
        return Some(WriteRefused);
      }
      pointer := Some(PointerOf(journal));
      if bootstrap {
        files := files[NAMESPACE := Directory(PRIVATE_DIRECTORY_MODE)][RECOVERY_ROOT := Directory(PRIVATE_DIRECTORY_MODE)];
      }
      return None;
    }

    /** The bundle's directory, plan, backups and journal, and then the live pointer. */
    method StageBundle(plan: Plan, started: int, bootstrap: bool) returns (fault: Option<Fault>, journal: Journal)
      requires bootstrap == (NAMESPACE !in files)
      modifies this
      ensures var staged := StagedJournal(root, old(files), plan, started, bootstrap);
        && Ended(fault, StageEvidence(root, old(State()), plan, staged, bootstrap))
        && (fault.None? ==> journal == staged)
    {
      hide EncodablePlan, ValidJournal, StagedAction, FitsRecord, NeedsBackup, StageBackups, StageJournal, Bootstrapped;
      var id := TransactionOf(plan.id, started);
      ghost var staged := StagedJournal(root, files, plan, started, bootstrap);
      journal := Journal(SCHEMA_VERSION, id, plan.operation, plan.id, root.path, Applying, Some(started), []);
      fault := StageRoot(bootstrap);
      if fault.Some? {
        return;
      }
      if id in bundles {
        return Some(StagingRefused), journal;
      }
      fault := WriteBundle(id, EMPTY_BUNDLE);
      if fault.Some? {
        return;
      }
      if !EncodablePlan(plan) {
        return Some(StagingRefused), journal;
      }
      fault := WriteBundle(id, EMPTY_BUNDLE.(plan := Some(Persisted(plan))));
      if fault.Some? {
        return;
      }
      var actions;
      fault, actions := StageActions(id, plan.changes);
      if fault.Some? {
        return;
      }
      var marked := actions;
      if bootstrap {
        marked := MarkBootstrap(actions);
      }
      StagedActionsAgree(old(files), files, plan.changes, actions, marked, bootstrap);
      journal := journal.(actions := marked);
      assert marked == staged.actions;
      assert journal == staged;
      fault := PublishPointer(journal, bootstrap);
    }

    method PrepareDurableTransaction(plan: Plan, started: int)
      returns (fault: Option<Fault>, journal: Journal, bootstrap: bool)
      modifies this
      ensures bootstrap == (NAMESPACE !in old(files))
      ensures var staged := StagedJournal(root, old(files), plan, started, bootstrap);
        && Ended(fault, Stage(root, old(State()), plan, staged, bootstrap))
        && (fault.None? ==> journal == staged)
    {
      hide StageEvidence;
      bootstrap := NAMESPACE !in files;
      if bootstrap {
        var refused := Spend();
        if refused {
          journal := Journal(SCHEMA_VERSION, NoTransaction, "", plan.id, root.path, Preparing, None, []);
          return Some(WriteRefused), journal, bootstrap;
        }
      }
      fault, journal := StageBundle(plan, started, bootstrap);
      if fault.Some? {
        bundles := bundles - {TransactionOf(plan.id, started)};
      }
    }

    // ----- The lock -----

    method AcquireTransactionLock(allowPendingPurge: bool) returns (fault: Option<Fault>)
      requires NAMESPACE in files
      modifies this
      ensures Ended(fault, AcquireLock(old(State()), allowPendingPurge))
      ensures fault.Some? ==> OnDisk() == old(OnDisk())
      ensures fault.None? ==> OnDisk() == old(OnDisk()).(locked := true)
      ensures fault.None? ==> !old(locked) && pointer.None? && (allowPendingPurge || PURGE_MARKER !in files)
    {
      if !files[NAMESPACE].Directory? {
        return Some(UnsafeNamespace);
      }
      if locked {
        return Some(LockHeld);
      }
      var refused := Spend();
      if refused {
        return Some(WriteRefused);
      }
      locked := true;
      if pointer.Some? {
        locked := false;
        return Some(RecoveryRequired);
      }
      if !allowPendingPurge && PURGE_MARKER in files {
        locked := false;
        return Some(PurgePending);
      }
      return None;
    }
  }

  /** A live transaction: its journal in memory, and the workspace whose bundle holds the same journal. */
  class DurableTransaction {
    const workspace: Workspace
    const metadata: Metadata
    var journal: Journal

    constructor (workspace: Workspace, journal: Journal, metadata: Metadata)
      ensures this.workspace == workspace && this.journal == journal && this.metadata == metadata
    {
      this.workspace, this.journal, this.metadata := workspace, journal, metadata;
    }

    method Transition(index: nat, state: ActionState) returns (fault: Option<Fault>)
      requires index < |journal.actions|
      modifies this, workspace
      ensures workspace.Ended(fault, Engine.Transition(old(workspace.State()), old(journal), index, state))
      ensures fault.None? ==> journal == SetLabel(old(journal), index, state)
    {
      if !CanTransition(journal.actions[index].state, state) {
        return Some(BadTransition);
      }
      journal := SetLabel(journal, index, state);
      var id := journal.transactionID;
      fault := workspace.WriteBundle(id, Stored(workspace.OnDisk(), id).(journal := Some(journal)));
    }

    /** The after hash of every change that leaves a file, and every path in order. */
    method Summarise(changes: seq<Change>) returns (hashes: map<string, Digest>, paths: seq<string>)
      ensures hashes == ReceiptHashes(changes)
      ensures paths == seq(|changes|, i requires 0 <= i < |changes| => changes[i].path)
    {
      hashes, paths := map[], [];
      for i := 0 to |changes|
        invariant hashes == ReceiptHashes(changes[..i])
        invariant paths == seq(i, k requires 0 <= k < i => changes[k].path)
      {
        var c := changes[i];
        assert changes[..i + 1][..i] == changes[..i];
        paths := paths + [c.path];
        if c.after != MissingDigest && c.after != DirectoryDigest {
          hashes := hashes[c.path := c.after];
        }
      }
      assert changes[..|changes|] == changes;
    }

    method WriteReceipt(changes: seq<Change>, at: int) returns (fault: Option<Fault>)
      modifies workspace
      ensures workspace.Ended(fault,
        WriteMigrationReceipt(workspace.root, old(workspace.State()), journal.planID, metadata, changes, at))
      ensures workspace.OnDisk() == old(workspace.OnDisk()).(files := workspace.files)
    {
      var path := metadata.migrationReceiptPath;
      if path == "" {
        return None;
      }
      var hashes, paths := Summarise(changes);
      var receipt := MigrationReceipt(metadata.migrationFrom, metadata.migrationTo, journal.planID, at / NANOSECONDS, hashes, paths);
      assert receipt == ReceiptFor(journal.planID, metadata, changes, at);
      var content := workspace.root.encodeReceipt(receipt);
      if !(".uawp/" <= path) || !workspace.root.resolves(path) {
        return Some(ReceiptPathInvalid);
      }
      if path in workspace.files {
        var existing := workspace.files[path];
        return if existing.File? && existing.content == content then None else Some(ReceiptCollision);
      }
      var refused := workspace.Spend();
      if refused {
        return Some(WriteRefused);
      }
      workspace.files := workspace.files[path := File(content, PRIVATE_FILE_MODE)];
      return None;
    }

    method Complete(plan: Plan, finished: int) returns (fault: Option<Fault>)
      requires metadata == plan.metadata
      modifies workspace
      ensures workspace.Ended(fault, Engine.Complete(workspace.root, old(workspace.State()), plan, journal, finished))
      ensures fault.Some? ==> workspace.pointer == old(workspace.pointer)
      ensures old(Stored(workspace.OnDisk(), journal.transactionID).receipt).Some? ==>
        fault.Some? && workspace.bundles == old(workspace.bundles)
      ensures fault.None? ==>
        && workspace.pointer == None
        && Stored(workspace.OnDisk(), journal.transactionID).receipt
           == Some(CompletionReceipt(journal, finished, Completed, ReceiptHashes(plan.changes)))
      ensures workspace.bundles - {journal.transactionID} == old(workspace.bundles) - {journal.transactionID}
      ensures Stored(workspace.OnDisk(), journal.transactionID).journal == old(Stored(workspace.OnDisk(), journal.transactionID).journal)
      ensures Stored(workspace.OnDisk(), journal.transactionID).backups == old(Stored(workspace.OnDisk(), journal.transactionID).backups)
    {
      hide WriteMigrationReceipt, ReceiptHashes;
      var hashes, _ := Summarise(plan.changes);
      fault := WriteReceipt(plan.changes, finished);
      if fault.Some? {
        return;
      }
      var id := journal.transactionID;
      if Stored(workspace.OnDisk(), id).receipt.Some? {
        return Some(ReceiptExists);
      }
      var receipt := CompletionReceipt(journal, finished, Completed, hashes);
      fault := workspace.WriteBundle(id, Stored(workspace.OnDisk(), id).(receipt := Some(receipt)));
      if fault.Some? {
        return;
      }
      var refused := workspace.Spend();
      if refused {
        return Some(WriteRefused);
      }
      workspace.pointer := None;
      return None;
    }
  }

  // ----- Apply -----

  /** The journals differ in their actions only. */
  predicate SameHeader(j: Journal, k: Journal) {
    j.(actions := []) == k.(actions := [])
  }

  lemma CompletionReadsHeader(root: Root, m: Machine, plan: Plan, j: Journal, k: Journal, finished: int)
    requires SameHeader(j, k)
    ensures Engine.Complete(root, m, plan, j, finished) == Engine.Complete(root, m, plan, k, finished)
  {
    hide ReceiptHashes, ReceiptFor;
    assert j.planID == j.(actions := []).planID == k.planID;
    assert j.transactionID == j.(actions := []).transactionID == k.transactionID;
    assert j.operation == j.(actions := []).operation == k.operation;
  }

  /** One turn of Apply's loop. */
  method ApplyAction(w: Workspace, txn: DurableTransaction, plan: Plan, i: nat, appliedPaths: set<string>)
    returns (fault: Option<Fault>)
    requires txn.workspace == w && i < |plan.changes| == |txn.journal.actions|
    requires appliedPaths == ChangePaths(plan.changes[..i])
    modifies w, txn
    ensures w.Ended(fault, PublishAction(w.root, old(w.State()), plan, old(txn.journal), i))
    ensures fault.None? ==> txn.journal == SetLabel(old(txn.journal), i, Verified)
  {
    hide InputsHold, AfterHolds, Publish, CanTransition;
    var c := plan.changes[i];
    var inputsHold := w.VerifyInputsExcept(plan.inputs, appliedPaths);
    if !inputsHold {
      return Some(InputDrift);
    }
    if !w.root.resolves(c.path) {
      return Some(Unresolvable);
    }
    fault := txn.Transition(i, InProgress);
    if fault.Some? {
      return;
    }
    fault := w.PublishChange(c);
    if fault.Some? {
      return;
    }
    fault := txn.Transition(i, Applied);
    if fault.Some? {
      return;
    }
    var settled := w.VerifyAfterState([c]);
    assert AllAfterHold(w.root, w.files, [c]) <==> AfterHolds(w.root, w.files, [c][0]);
    if !settled {
      return Some(AfterMismatch);
    }
    ghost var j := old(txn.journal);
    assert SetLabel(SetLabel(j, i, InProgress), i, Applied) == SetLabel(j, i, Applied);
    assert SetLabel(SetLabel(j, i, Applied), i, Verified) == SetLabel(j, i, Verified);
    fault := txn.Transition(i, Verified);
  }

  method ApplyChanges(w: Workspace, txn: DurableTransaction, plan: Plan, bootstrap: bool) returns (fault: Option<Fault>)
    requires txn.workspace == w && |plan.changes| == |txn.journal.actions|
    modifies w, txn
    ensures w.Ended(fault, PublishFrom(w.root, old(w.State()), plan, old(txn.journal), bootstrap, 0))
    ensures fault.None? ==> SameHeader(txn.journal, old(txn.journal))
  {
    hide PublishAction;
    var appliedPaths: set<string> := {};
    for i := 0 to |plan.changes|
      invariant |plan.changes| == |txn.journal.actions| && SameHeader(txn.journal, old(txn.journal))
      invariant PublishFrom(w.root, old(w.State()), plan, old(txn.journal), bootstrap, 0)
             == PublishFrom(w.root, w.State(), plan, txn.journal, bootstrap, i)
      invariant appliedPaths == ChangePaths(plan.changes[..i])
    {
      assert plan.changes[..i + 1] == plan.changes[..i] + [plan.changes[i]];
      if !(bootstrap && txn.journal.actions[i].state == Verified) {
        fault := ApplyAction(w, txn, plan, i, appliedPaths);
        if fault.Some? {
          return;
        }
      }
      appliedPaths := appliedPaths + {plan.changes[i].path};
    }
    return None;
  }

  /** Apply under the lock, or on an absent namespace. */
  method ApplyUnlocked(w: Workspace, plan: Plan, started: int, finished: int) returns (fault: Option<Fault>)
    modifies w
    ensures w.Ended(fault, ApplyBody(w.root, old(w.State()), plan, started, finished))
  {
    hide InputsHold, AllBeforeHold, AllAfterHold, Stage, PublishFrom, Engine.Complete, StagedAction;
    var inputsHold := w.VerifyInputsExcept(plan.inputs, {});
    if !inputsHold {
      return Some(InputDrift);
    }
    var before := w.VerifyBeforeState(plan.changes);
    if !before {
      return Some(BeforeDrift);
    }
    if plan.changes == [] {
      return None;
    }
    var journal, bootstrap;
    fault, journal, bootstrap := w.PrepareDurableTransaction(plan, started);
    if fault.Some? {
      return;
    }
    var txn := new DurableTransaction(w, journal, plan.metadata);
    fault := ApplyChanges(w, txn, plan, bootstrap);
    if fault.Some? {
      return;
    }
    var settled := w.VerifyAfterState(plan.changes);
    if !settled {
      return Some(AfterMismatch);
    }
    CompletionReadsHeader(w.root, w.State(), plan, txn.journal, journal, finished);
    fault := txn.Complete(plan, finished);
  }

  /** Apply: approval, lock, then everything else with the lock released at the end whatever happens. */
  method Apply(w: Workspace, plan: Plan, approved: PlanID, started: int, finished: int) returns (fault: Option<Fault>)
    modifies w
    ensures w.Ended(fault, ApplyRun(w.root, old(w.State()), plan, approved, started, finished))
  {
    hide ApplyBody, AcquireLock;
    if approved == NoPlanID || approved != plan.id {
      return Some(NotApproved);
    }
    if plan.workspace != w.root.path {
      return Some(WrongWorkspace);
    }
    if NAMESPACE !in w.files {
      fault := ApplyUnlocked(w, plan, started, finished);
      return;
    }
    fault := w.AcquireTransactionLock(plan.operation == "purge-abort");
    if fault.Some? {
      return;
    }
    fault := ApplyUnlocked(w, plan, started, finished);
    w.locked := false;
  }
}
