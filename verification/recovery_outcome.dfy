/** One recovery, interrupted anywhere: the invariant survives, or the transaction is over with its
    files wholly on one side. */
module RecoveryOutcomes {
  import opened Wrappers
  import opened Records
  import opened Sorting
  import opened Planning
  import opened Transactions
  import opened Engine
  import opened Invariants
  import opened ApplyProofs
  import opened RecoveryProofs
  import opened RedoUndoProofs

  // ----- The recovery plan keeps the list as it is -----

  /** j's actions are the changes, one by one. */
  ghost predicate ActionsAre(j: Journal, changes: seq<Change>) {
    |j.actions| == |changes| && forall i :: 0 <= i < |changes| ==> j.actions[i].change == changes[i]
  }

  lemma {:induction false} RedoIsOrdered(j: Journal, o: Observation, changes: seq<Change>, i: nat, less: (Change,
                                         Change) -> bool)
    requires ActionsAre(j, changes) && Sorted(changes, less) && i <= |changes|
    ensures Sorted(RedoFrom(j, o, i), less)
    ensures forall c :: c in RedoFrom(j, o, i) ==> c in changes[i..]
    decreases |changes| - i
  {
    hide MatchesAfter, LiveState;
    if i < |changes| {
      RedoIsOrdered(j, o, changes, i + 1, less);
      var rest := RedoFrom(j, o, i + 1);
      forall b | 0 <= b < |rest|
        ensures !less(rest[b], changes[i])
      {
        assert rest[b] in changes[i + 1..];
      }
    }
  }

  /** A redo list is already in the order its plan will have. */
  lemma RedoKeepsOrder(j: Journal, o: Observation, changes: seq<Change>)
    requires ActionsAre(j, changes) && InOrder(changes) && DistinctKeys(changes)
    ensures Canonically(Sort(RedoFrom(j, o, 0), BySequence)) == RedoFrom(j, o, 0)
  {
    var redo := RedoFrom(j, o, 0);
    if ExplicitSequence(changes) {
      RedoIsOrdered(j, o, changes, 0, BySequence);
      SortFixesSorted(redo, BySequence);
      if !ExplicitSequence(redo) {
        forall a, b | 0 <= a < b < |redo|
          ensures !ByPath(redo[b], redo[a])
        {
          assert redo[a] in redo && redo[b] in redo;
          assert redo[a] == redo[b];
          PathOrdering();
        }
        SortFixesSorted(redo, ByPath);
      }
    } else {
      RedoIsOrdered(j, o, changes, 0, ByPath);
      forall c | c in redo
        ensures c.sequence == 0
      {
      }
      SortFixesSorted(redo, BySequence);
      SortFixesSorted(redo, ByPath);
    }
  }

  lemma {:induction false} UndoIsOrdered(j: Journal, o: Observation, i: nat)
    requires i <= |j.actions|
    ensures Sorted(UndoBelow(j, o, i), BySequence)
    ensures forall c :: c in UndoBelow(j, o, i) ==> c.sequence >= (|j.actions| - i + 1) * 10
  {
    hide MatchesBefore, LiveState, Undo, BackupContent;
    if i > 0 {
      UndoIsOrdered(j, o, i - 1);
    }
  }

  lemma UndoKeepsOrder(j: Journal, o: Observation)
    ensures Canonically(UndoBelow(j, o, |j.actions|)) == UndoBelow(j, o, |j.actions|)
  {
    var undo := UndoBelow(j, o, |j.actions|);
    UndoIsOrdered(j, o, |j.actions|);
    if undo == [] {
      assert Canonically(undo) == undo;
    } else {
      assert undo[0] in undo && undo[0].sequence != 0;
      SortFixesSorted(undo, BySequence);
    }
  }

  // ----- What is planned -----

  ghost function JournalAt(t: Txn, d: Disk): Journal
    requires Live(t, d)
  {
    d.bundles[t.ID()].journal.value
  }

  ghost function ObservationAt(t: Txn, d: Disk): Observation
    requires Live(t, d)
  {
    ObserveAll(d.files, d.bundles[t.ID()].backups, JournalAt(t, d), t.plan.inputs)
  }

  ghost function RecoveryList(t: Txn, d: Disk, action: RecoveryAction): seq<Change>
    requires Live(t, d)
  {
    var j := JournalAt(t, d);
    if action == Rollback then UndoBelow(j, ObservationAt(t, d), |j.actions|) else RedoFrom(j, ObservationAt(t, d), 0)
  }

  predicate Offered(classification: Classification, action: RecoveryAction) {
    classification == BothAvailable || (action == Continue && classification == TransactionComplete)
  }

  ghost predicate PlanIs(t: Txn, d: Disk, plan: Plan, action: RecoveryAction)
    requires Live(t, d)
  {
    && plan.changes == RecoveryList(t, d, action)
    && plan.workspace == t.root.path && plan.id != NoPlanID
    && MatchesEvidence(plan.metadata, JournalAt(t, d)) && plan.metadata.recoveryAction == action
  }

  lemma ListKeepsOrder(t: Txn, d: Disk)
    requires Sound(t) && Live(t, d)
    ensures var list := RecoveryList(t, d, Continue); Canonically(Sort(list, BySequence)) == list
    ensures var list := RecoveryList(t, d, Rollback); Canonically(list) == list
  {
    var j, o := JournalAt(t, d), ObservationAt(t, d);
    LoadedJournal(t, j);
    assert Canonical(t.plan) && DistinctKeys(t.plan.changes);
    hide Sound, Live, ObserveAll, ValidJournal, StagedAction, SameButLabels, DistinctKeys;
    CanonicallyOrders(t.plan.changes);
    hide Canonically, InOrder, ActionPaths;
    assert ActionsAre(j, t.plan.changes);
    RedoKeepsOrder(j, o, t.plan.changes);
    UndoKeepsOrder(j, o);
  }

  lemma PlanUnfolds(root: Root, d: Disk, s: Snapshot, controllerID: string, reason: string, action: RecoveryAction)
    requires LoadSnapshot(root, d) == Ok(s) && action in {Rollback, Continue}
    ensures var plan := PlanRecovery(root, d, controllerID, reason, action);
      var j := s.bundle.journal;
      && (plan.Ok? <==> controllerID != "" && reason != ""
                        && Offered(ClassificationOf(s.bundle, s.observation), action))
      && (plan.Ok? ==>
            && plan.value.changes == Canonically(
                 if action == Rollback then UndoBelow(j, s.observation, |j.actions|)
                 else Sort(RedoFrom(j, s.observation, 0), BySequence))
            && plan.value.workspace == root.path && plan.value.id != NoPlanID
            && MatchesEvidence(plan.value.metadata, j) && plan.value.metadata.recoveryAction == action)
  {
    hide LoadSnapshot, ClassificationOf, UndoBelow, RedoFrom, Canonically, Sort, HashedAll;
  }

  /** A recovery is planned exactly when its classification offers it, and then it is the list itself. */
  lemma RecoveryIsPlanned(t: Txn, d: Disk, controllerID: string, reason: string, action: RecoveryAction)
    requires Sound(t) && Holds(t, d) && action in {Rollback, Continue}
    ensures var plan := PlanRecovery(t.root, d, controllerID, reason, action);
      && (plan.Ok? <==> controllerID != "" && reason != "" && InputsResolve(t.root, t.plan)
                        && Offered(ClassificationAt(t, d), action))
      && (plan.Ok? ==> PlanIs(t, d, plan.value, action))
  {
    hide Sound, EitherWay, Framed, LoadSnapshot, ClassificationOf, InputsResolve, ObserveAll, UndoBelow, RedoFrom,
      Canonically, Sort,
      HashedAll, BundleKept, PointerOf, NewPlan;
    SnapshotLoads(t, d);
    ListKeepsOrder(t, d);
    if LoadSnapshot(t.root, d).Ok? {
      PlanUnfolds(t.root, d, LoadSnapshot(t.root, d).value, controllerID, reason, action);
      hide PlanRecovery;
    }
  }

  // ----- The before check of a recovery -----

  function UndoOf(j: Journal, o: Observation, x: nat): Change
    requires x < |j.actions|
  {
    WithSequence(Undo(j.actions[x], BackupContent(o, x)), (|j.actions| - x) * 10)
  }

  lemma {:induction false} UndoMembers(j: Journal, o: Observation, i: nat)
    requires i <= |j.actions|
    ensures forall x :: 0 <= x < i && !MatchesBefore(j.actions[x].change, LiveState(o, j.actions[x].change.path)) ==>
      UndoOf(j, o, x) in UndoBelow(j, o, i)
    ensures forall u :: u in UndoBelow(j, o, i) ==>
      exists x :: 0 <= x < i && u == UndoOf(j, o, x) && !MatchesBefore(j.actions[x].change, LiveState(o, j.actions[x].change.path))
  {
    hide MatchesBefore, LiveState, Undo, BackupContent;
    if i > 0 {
      UndoMembers(j, o, i - 1);
      assert UndoBelow(j, o, i) == UndoStep(j, o, i - 1) + UndoBelow(j, o, i - 1);
      var c := j.actions[i - 1].change;
      assert UndoStep(j, o, i - 1) == if MatchesBefore(c, LiveState(o, c.path)) then [] else [UndoOf(j, o, i - 1)];
    }
  }

  lemma {:induction false} RedoMembers(j: Journal, o: Observation, i: nat)
    requires i <= |j.actions|
    ensures forall c :: c in RedoFrom(j, o, i) ==>
      exists x :: i <= x < |j.actions| && c == j.actions[x].change && !MatchesAfter(c, LiveState(o, c.path))
    decreases |j.actions| - i
  {
    hide MatchesAfter, LiveState;
    if i < |j.actions| {
      RedoMembers(j, o, i + 1);
      var c := j.actions[i].change;
      assert RedoStep(j, o, i) == if MatchesAfter(c, LiveState(o, c.path)) then [] else [c];
    }
  }

  lemma SidesAreSeen(t: Txn, d: Disk)
    requires Sound(t) && Holds(t, d)
    ensures |JournalAt(t, d).actions| == t.Size()
    ensures Seen(t, JournalAt(t, d), ObservationAt(t, d), d.files, 0, t.Size())
  {
    hide Sound, Live, EitherWay, Framed, ObserveAll, MatchesAfter, MatchesBefore, LiveState, Look, BeforeState,
      AfterState;
    SidesAreObserved(t, d);
  }

  lemma ContinuePassesBefore(t: Txn, d: Disk)
    requires Sound(t) && Holds(t, d)
    ensures AllBeforeHold(t.root, d.files, RecoveryList(t, d, Continue))
  {
    hide Sound, Live, EitherWay, Framed, RecoveryList, BeforeHolds;
    var list := RecoveryList(t, d, Continue);
    forall i | 0 <= i < |list|
      ensures BeforeHolds(t.root, d.files, list[i])
    {
      ContinueEntryPasses(t, d, list[i]);
    }
  }

  lemma ContinueEntryPasses(t: Txn, d: Disk, c: Change)
    requires Sound(t) && Holds(t, d) && c in RecoveryList(t, d, Continue)
    ensures BeforeHolds(t.root, d.files, c)
  {
    hide Sound, Live, EitherWay, Framed, ObservationAt, MatchesAfter, MatchesBefore, LiveState, BeforeHolds, Look,
      RedoFrom, BeforeState, AfterState,
      Publishable, NeedsBackup;
    var j, o := JournalAt(t, d), ObservationAt(t, d);
    SidesAreSeen(t, d);
    RedoMembers(j, o, 0);
    var x :| 0 <= x < |j.actions| && c == j.actions[x].change && !MatchesAfter(c, LiveState(o, c.path));
    SoundEntry(t, d.files, x);
    BeforeHoldsMeansBefore(t.root, d.files, c);
  }

  /** No change that makes a directory has been published. */
  ghost predicate NoDirectoryMade(t: Txn, files: Files) {
    forall i :: 0 <= i < t.Size() && t.plan.changes[i].kind == CreateDir ==>
      Look(files, t.plan.changes[i].path) == BeforeState(t.plan.changes[i])
  }

  lemma UndoEntryPasses(t: Txn, d: Disk, x: nat)
    requires Sound(t) && Holds(t, d) && x < t.Size()
    requires Look(d.files, t.plan.changes[x].path) != BeforeState(t.plan.changes[x])
    ensures |JournalAt(t, d).actions| == t.Size()
    ensures BeforeHolds(t.root, d.files, UndoOf(JournalAt(t, d), ObservationAt(t, d), x)) <==> t.plan.changes[x].kind != CreateDir
  {
    hide Sound, Live, EitherWay, Framed, ObserveAll, Look, BackupContent, ValidJournal, StagedAction, SameButLabels,
      ActionPaths, BackupGood, ModePrivate,
      Undo, BeforeState, AfterState, BeforeHolds, NeedsBackup;
    var j, o := JournalAt(t, d), ObservationAt(t, d);
    var c := t.plan.changes[x];
    JournalIsKept(t, d);
    LoadedJournal(t, j);
    BackupsAreObserved(t, d, x);
    SoundEntry(t, d.files, x);
    if c.kind == CreateDir {
      DirectoryUndoFails(t.root, d.files, j.actions[x], BackupContent(o, x), (|j.actions| - x) * 10);
    } else {
      UndoIsInverse(j.actions[x], BackupContent(o, x), (|j.actions| - x) * 10);
      BeforeHoldsMeansBefore(t.root, d.files, UndoOf(j, o, x));
    }
  }

  lemma SoundEntry(t: Txn, files: Files, x: nat)
    requires Sound(t) && EitherWay(t, files) && x < t.Size()
    ensures var c := t.plan.changes[x];
      && Publishable(c) && t.root.resolves(c.path)
      && Look(files, c.path) in {BeforeState(c), AfterState(c)}
      && (NeedsBackup(c) && c.path in t.origin && t.origin[c.path].File? ==> HashBytes(t.origin[c.path].content) == c.before)
  {
    var c := t.plan.changes[x];
    assert SoundChange(t, c);
  }

  /** The undo of a made directory expects a file with the digest of a directory. */
  lemma DirectoryUndoFails(root: Root, files: Files, a: Action, backup: Bytes, sequence: int)
    requires a.change.kind == CreateDir
    ensures !BeforeHolds(root, files, WithSequence(Undo(a, backup), sequence))
  {
  }

  /** A rollback passes its before check exactly when no directory has to be taken back. */
  lemma RollbackPassesBefore(t: Txn, d: Disk)
    requires Sound(t) && Holds(t, d)
    ensures AllBeforeHold(t.root, d.files, RecoveryList(t, d, Rollback)) <==> NoDirectoryMade(t, d.files)
  {
    hide Sound, Live, EitherWay, Framed, ObservationAt, Look, BeforeState, AfterState, MatchesBefore, MatchesAfter,
      LiveState, UndoOf, BeforeHolds, UndoBelow;
    var j, o, list := JournalAt(t, d), ObservationAt(t, d), RecoveryList(t, d, Rollback);
    SidesAreSeen(t, d);
    UndoMembers(j, o, |j.actions|);
    forall x | 0 <= x < t.Size() && Look(d.files, t.plan.changes[x].path) != BeforeState(t.plan.changes[x])
      ensures BeforeHolds(t.root, d.files, UndoOf(j, o, x)) <==> t.plan.changes[x].kind != CreateDir
    {
      UndoEntryPasses(t, d, x);
    }
    if AllBeforeHold(t.root, d.files, list) {
      forall x | 0 <= x < t.Size() && Look(d.files, t.plan.changes[x].path) != BeforeState(t.plan.changes[x])
        ensures t.plan.changes[x].kind != CreateDir
      {
        assert UndoOf(j, o, x) in list;
      }
    } else {
      var i :| 0 <= i < |list| && !BeforeHolds(t.root, d.files, list[i]);
      assert list[i] in list;
    }
  }

  // ----- Publishing the recovery list -----

  ghost predicate Reached(t: Txn, files: Files, action: RecoveryAction) {
    if action == Continue then AllAfterState(t, files) else AllBeforeState(t, files)
  }

  /** A continue moves the published prefix up, a rollback moves it down. */
  predicate Moves(action: RecoveryAction, k: nat, k': nat) {
    if action == Continue then k <= k' else k' <= k
  }

  lemma RedoStarts(t: Txn, d: Disk, k: nat, ordered: bool)
    requires Sound(t) && Holds(t, d) && (ordered ==> AtPrefix(t, d.files, k))
    ensures Redoing(t, JournalAt(t, d), ObservationAt(t, d), d.files, 0, k, ordered)
  {
    hide Sound, Live, EitherWay, Framed, ObservationAt, Seen, AtPrefix;
    SidesAreSeen(t, d);
  }

  lemma BackupsHoldBefore(t: Txn, d: Disk)
    requires Sound(t) && Holds(t, d)
    ensures forall x :: 0 <= x < t.Size() && NeedsBackup(t.plan.changes[x]) ==>
      HashBytes(BackupContent(ObservationAt(t, d), x)) == t.plan.changes[x].before
  {
    hide Sound, Live, EitherWay, Framed, ObserveAll, BackupContent, NeedsBackup, BackupGood, ModePrivate;
    forall x | 0 <= x < t.Size() && NeedsBackup(t.plan.changes[x])
      ensures HashBytes(BackupContent(ObservationAt(t, d), x)) == t.plan.changes[x].before
    {
      BackupsAreObserved(t, d, x);
    }
  }

  lemma UndoStarts(t: Txn, d: Disk, k: nat, ordered: bool)
    requires Sound(t) && Holds(t, d) && (ordered ==> AtPrefix(t, d.files, k)) && NoDirectoryMade(t, d.files)
    ensures Undoing(t, JournalAt(t, d), ObservationAt(t, d), d.files, t.Size(), k, ordered)
  {
    hide Sound, Live, EitherWay, Framed, ObservationAt, Seen, Look, BeforeState, AfterState, BackupContent, NeedsBackup;
    SidesAreSeen(t, d);
    BackupsHoldBefore(t, d);
  }

  /** Publishing the list from a machine on d moves paths to the chosen side, in order, and no further. */
  lemma ListMoves(t: Txn, d: Disk, m: Machine, action: RecoveryAction, k: nat, ordered: bool) returns (k': nat)
    requires Sound(t) && Holds(t, d) && action in {Rollback, Continue} && m.disk.files == d.files
    requires ordered ==> AtPrefix(t, d.files, k)
    requires AllBeforeHold(t.root, d.files, RecoveryList(t, d, action))
    ensures var r := PublishList(t.root, m, RecoveryList(t, d, action));
      && ListOutcome(t, m, t.Size(), action, r)
      && (r.Go? ==> Reached(t, r.m.disk.files, action))
      && (ordered ==> Moves(action, k, k') && AtPrefix(t, r.m.disk.files, k'))
  {
    var j, o := JournalAt(t, d), ObservationAt(t, d);
    hide Sound, Live, EitherWay, Framed, ObserveAll, Redoing, Undoing, AllBeforeHold, NoDirectoryMade, ListOutcome,
      PublishList,
      RedoFrom, UndoBelow, AllAfterState, AllBeforeState, AtPrefix;
    if action == Continue {
      RedoStarts(t, d, k, ordered);
      RedoingFacts(t, j, o, d.files, 0, k, ordered);
      k' := RedoMovesForward(t, m, j, o, 0, k, ordered);
    } else {
      RollbackPassesBefore(t, d);
      UndoStarts(t, d, k, ordered);
      UndoingFacts(t, j, o, d.files, t.Size(), k, ordered);
      k' := UndoMovesBack(t, m, j, o, t.Size(), k, ordered);
    }
  }

  // ----- The end of a recovery -----

  /** How a recovery can leave the disk: still unfinished, or over with every path on the chosen side. */
  ghost predicate RecoveryEnds(t: Txn, d: Disk, action: RecoveryAction, r: Run) {
    && r.m.disk.bundles - {t.ID()} == d.bundles - {t.ID()}
    && if r.m.disk.pointer.Some? then r.Halt? && Holds(t, r.m.disk)
       else r.Go? && Framed(t, r.m.disk.files) && Reached(t, r.m.disk.files, action)
  }

  lemma SidesAreEitherWay(t: Txn, files: Files, action: RecoveryAction)
    requires Reached(t, files, action)
    ensures EitherWay(t, files)
  {
  }

  /** Every action path keeps its entry. */
  ghost predicate SameTargets(t: Txn, files: Files, files': Files) {
    forall i :: 0 <= i < t.Size() ==> Get(files', t.plan.changes[i].path) == Get(files, t.plan.changes[i].path)
  }

  lemma {:induction false} SameTargetsSamePrefix(t: Txn, files: Files, files': Files, k: nat)
    requires SameTargets(t, files, files') && AtPrefix(t, files, k)
    ensures AtPrefix(t, files', k)
  {
    forall i | 0 <= i < t.Size()
      ensures Look(files', t.plan.changes[i].path) == Look(files, t.plan.changes[i].path)
    {
      SameEntrySameLook(files, files', t.plan.changes[i].path);
    }
  }

  /** The migration receipt can be written, or is there already, identical to the second. */
  ghost predicate ReceiptAccepted(t: Txn, files: Files, now: int) {
    var path := t.plan.metadata.migrationReceiptPath;
    path != "" ==>
      && ".uawp/" <= path && t.root.resolves(path)
      && (path in files ==>
            && files[path].File?
            && files[path].content == t.root.encodeReceipt(ReceiptFor(t.plan.id, t.plan.metadata, t.plan.changes, now)))
  }

  lemma ReceiptAcceptance(t: Txn, m: Machine, now: int)
    ensures var r := WriteMigrationReceipt(t.root, m, t.plan.id, t.plan.metadata, t.plan.changes, now);
      && (r.Go? ==> ReceiptAccepted(t, m.disk.files, now))
      && (ReceiptAccepted(t, m.disk.files, now) && m.left > 0 ==> r.Go?)
      && r.m.left >= m.left - 1
      && (r.Halt? ==> r.m == m)
  {
    hide ReceiptFor;
  }

  /** The migration receipt of a continue: at most one path outside the plan changes. */
  lemma ReceiptStep(t: Txn, m: Machine, action: RecoveryAction, now: int)
    requires action in {Rollback, Continue} && Sound(t) && Framed(t, m.disk.files) && Reached(t, m.disk.files, action)
    ensures var r := if action == Continue then
                       WriteMigrationReceipt(t.root, m, t.plan.id, t.plan.metadata, Canonically(t.plan.changes), now)
                     else Go(m);
      && r.m.disk == m.disk.(files := r.m.disk.files)
      && Framed(t, r.m.disk.files) && Reached(t, r.m.disk.files, action) && SameTargets(t, m.disk.files, r.m.disk.files)
      && (action == Rollback ==> r == Go(m))
      && r.m.left >= m.left - 1
      && (r.Go? ==> action == Rollback || ReceiptAccepted(t, m.disk.files, now))
      && ((action == Rollback || ReceiptAccepted(t, m.disk.files, now)) && m.left > 0 ==> r.Go?)
      && (r.Halt? ==> r.m == m)
  {
    hide Sound, Framed, AllAfterState, AllBeforeState, Canonically, WriteMigrationReceipt, SameTargets, EitherWay,
      ReceiptAccepted;
    SidesAreEitherWay(t, m.disk.files, action);
    SameTargetsAsSelf(t, m.disk.files);
    if action == Continue {
      OriginalIsOrdered(t);
      ReceiptKeepsTargets(t, m, t.plan.changes, now);
      ReceiptAcceptance(t, m, now);
    }
  }

  lemma OriginalIsOrdered(t: Txn)
    requires Sound(t)
    ensures Canonically(t.plan.changes) == t.plan.changes
  {
    assert Canonical(t.plan);
    hide Canonically;
  }

  lemma SameTargetsAsSelf(t: Txn, files: Files)
    ensures SameTargets(t, files, files)
  {
  }

  lemma ReceiptKeepsTargets(t: Txn, m: Machine, changes: seq<Change>, at: int)
    requires Sound(t) && Framed(t, m.disk.files) && AllAfterState(t, m.disk.files)
    ensures var r := WriteMigrationReceipt(t.root, m, t.plan.id, t.plan.metadata, changes, at);
      && r.m.disk == m.disk.(files := r.m.disk.files)
      && Framed(t, r.m.disk.files) && AllAfterState(t, r.m.disk.files)
      && SameTargets(t, m.disk.files, r.m.disk.files)
      && (t.plan.metadata.migrationReceiptPath == "" ==> r == Go(m))
  {
    hide Sound, Framed, AllAfterState, EitherWay, ReceiptFor;
    assert t.journal.planID == t.plan.id by {
      SoundFacts(t);
    }
    MigrationReceiptKeeps(t, m, changes, at);
    var receipt := ReceiptFor(t.plan.id, t.plan.metadata, changes, at);
    ReceiptMovesNoTarget(t, m.disk.files, File(t.root.encodeReceipt(receipt), PRIVATE_FILE_MODE));
  }

  ghost predicate BundleFor(t: Txn, bundle: Bundle) {
    && bundle.plan == Persisted(t.plan) && bundle.journal.transactionID == t.ID()
    && bundle.journal.operation == t.journal.operation && bundle.journal.planID == t.plan.id == t.journal.planID
  }

  lemma FinishKeeps(t: Txn, m: Machine, bundle: Bundle, action: RecoveryAction, now: int)
    requires Sound(t) && Live(t, m.disk) && Framed(t, m.disk.files) && action in {Rollback, Continue}
    requires Reached(t, m.disk.files, action) && BundleFor(t, bundle)
    ensures var r := FinishRecovery(t.root, m, bundle, action, now);
      && RecoveryEnds(t, m.disk, action, r)
      && SameTargets(t, m.disk.files, r.m.disk.files)
      && (m.left >= 3 ==> (r.Go? <==> action == Rollback || ReceiptAccepted(t, m.disk.files, now)))
      && (action == Continue && !ReceiptAccepted(t, m.disk.files, now) ==> r.Halt? && r.m == m)
  {
    hide Sound, Framed, Reached, EitherWay, BundleKept, SameTargets, Canonically, WriteMigrationReceipt,
      ReceiptAccepted;
    ReceiptStep(t, m, action, now);
    var r1 := if action == Continue then
                WriteMigrationReceipt(t.root, m, t.plan.id, t.plan.metadata, Canonically(t.plan.changes), now)
              else Go(m);
    SidesAreEitherWay(t, r1.m.disk.files, action);
    if r1.Go? && r1.m.left > 0 {
      var receipt := CompletionReceipt(bundle.journal, now, if action == Continue then Completed else RolledBackResult, map[]);
      ReceiptKeepsEvidence(t, r1.m.disk, receipt);
    }
  }

  lemma LiveReadsRecords(t: Txn, d: Disk, d': Disk)
    requires Live(t, d) && d'.pointer == d.pointer && d'.bundles == d.bundles
    ensures Live(t, d')
  {
  }

  /** What RecoveryBody is run on: t as it stands on d, the lock taken, the plan made from d. */
  ghost predicate Prepared(t: Txn, d: Disk, m: Machine, plan: Plan, bundle: Bundle, action: RecoveryAction, k: nat,
                           ordered: bool) {
    && Sound(t) && Holds(t, d) && m.disk == d.(locked := true) && action in {Rollback, Continue}
    && PlanIs(t, d, plan, action) && BundleFor(t, bundle) && (ordered ==> AtPrefix(t, d.files, k))
  }

  lemma BodyIsRefused(t: Txn, d: Disk, m: Machine, plan: Plan, bundle: Bundle, action: RecoveryAction, now: int,
                      k: nat, ordered: bool)
    requires Prepared(t, d, m, plan, bundle, action, k, ordered) && !AllBeforeHold(t.root, d.files, plan.changes)
    ensures RecoveryBody(t.root, m, plan, bundle, now) == Halt(m, BeforeDrift)
    ensures RecoveryEnds(t, d, action, Unlocked(Halt(m, BeforeDrift)))
    ensures action == Rollback && !NoDirectoryMade(t, d.files)
  {
    hide Sound, AllBeforeHold, EitherWay, Framed, BundleKept, RecoveryList, NoDirectoryMade, BundleFor;
    LiveReadsRecords(t, d, d.(locked := false));
    ContinuePassesBefore(t, d);
    RollbackPassesBefore(t, d);
  }

  lemma {:induction false} ReachedLeavesNone(t: Txn, files: Files, action: RecoveryAction, n: nat)
    requires action in {Rollback, Continue} && Reached(t, files, action) && n <= t.Size()
    ensures Remaining(t, files, action, n) == 0
  {
    hide Look, BeforeState, AfterState;
    if n > 0 {
      ReachedLeavesNone(t, files, action, n - 1);
    }
  }

  lemma ReceiptPathIsOutside(t: Txn)
    requires Sound(t)
    ensures t.plan.metadata.migrationReceiptPath !in ChangePaths(t.plan.changes)
  {
    assert WellFormed(t.plan);
  }

  lemma ReceiptIsOutside(t: Txn, files: Files, files': Files, now: int)
    requires Sound(t) && OutsideKept(t, files, files')
    ensures ReceiptAccepted(t, files', now) == ReceiptAccepted(t, files, now)
  {
    var path := t.plan.metadata.migrationReceiptPath;
    ReceiptPathIsOutside(t);
    hide Sound, OutsideKept, ReceiptFor;
    assert Get(files', path) == Get(files, path) by {
      OutsideMeansKept(t, files, files', path);
    }
  }

  lemma OutsideMeansKept(t: Txn, files: Files, files': Files, q: string)
    requires OutsideKept(t, files, files') && q !in ChangePaths(t.plan.changes)
    ensures Get(files', q) == Get(files, q)
  {
  }

  /** Every write moved one path for good, until none was left to move. */
  ghost predicate Progressed(t: Txn, files: Files, files': Files, action: RecoveryAction, writes: nat) {
    var count, count' := Remaining(t, files, action, t.Size()), Remaining(t, files', action, t.Size());
    count' == 0 || count' + writes == count
  }

  /** The recovery of a prepared machine, at whatever write it stops. */
  lemma BodyEnds(t: Txn, d: Disk, m: Machine, plan: Plan, bundle: Bundle, action: RecoveryAction, now: int, k: nat,
                 ordered: bool)
    returns (k': nat)
    requires Prepared(t, d, m, plan, bundle, action, k, ordered) && AllBeforeHold(t.root, d.files, plan.changes)
    ensures var r := RecoveryBody(t.root, m, plan, bundle, now);
      && RecoveryEnds(t, d, action, r)
      && (ordered ==> Moves(action, k, k') && AtPrefix(t, r.m.disk.files, k'))
      && Progressed(t, d.files, r.m.disk.files, action, m.left)
      && (m.left >= t.Size() + 3 ==> (r.Go? <==> action == Rollback || ReceiptAccepted(t, d.files, now)))
      && (action == Continue && !ReceiptAccepted(t, d.files, now) ==> r.Halt? && OutsideKept(t, d.files, r.m.disk.files))
  {
    hide Sound, AllBeforeHold, EitherWay, Framed, Live, RecoveryList, BundleFor, Reached, PublishList, FinishRecovery,
      RecoveryEnds, AtPrefix,
      SameTargets, ReceiptAccepted, OutsideKept;
    k' := ListMoves(t, d, m, action, k, ordered);
    var r1 := PublishList(t.root, m, plan.changes);
    LiveReadsRecords(t, d, r1.m.disk);
    if r1.Go? {
      k' := ListFinishes(t, d, m, r1.m, bundle, action, now, k, k', ordered);
    } else {
      StopIsAnEnd(t, d, action, r1);
    }
  }

  /** From a published list to the end of the recovery. */
  lemma ListFinishes(t: Txn, d: Disk, m: Machine, m1: Machine, bundle: Bundle, action: RecoveryAction, now: int,
                     k: nat, k1: nat, ordered: bool)
    returns (k': nat)
    requires Sound(t) && Live(t, m1.disk) && Framed(t, m1.disk.files) && action in {Rollback, Continue}
    requires Reached(t, m1.disk.files, action) && BundleFor(t, bundle) && m1.disk.bundles == d.bundles
    requires OutsideKept(t, d.files, m1.disk.files)
    requires ordered ==> Moves(action, k, k1) && AtPrefix(t, m1.disk.files, k1)
    ensures var r := FinishRecovery(t.root, m1, bundle, action, now);
      && RecoveryEnds(t, d, action, r)
      && (ordered ==> Moves(action, k, k') && AtPrefix(t, r.m.disk.files, k'))
      && Remaining(t, r.m.disk.files, action, t.Size()) == 0
      && (m1.left >= 3 ==> (r.Go? <==> action == Rollback || ReceiptAccepted(t, d.files, now)))
      && (action == Continue && !ReceiptAccepted(t, d.files, now) ==> r.Halt? && r.m == m1)
  {
    hide Sound, EitherWay, Framed, Live, BundleFor, Reached, FinishRecovery, RecoveryEnds, AtPrefix, SameTargets,
      ReceiptAccepted, OutsideKept;
    k' := k1;
    FinishKeeps(t, m1, bundle, action, now);
    ReceiptIsOutside(t, d.files, m1.disk.files, now);
    var r := FinishRecovery(t.root, m1, bundle, action, now);
    EndsFrom(t, d, m1.disk, action, r);
    ReachedLeavesNone(t, m1.disk.files, action, t.Size());
    SameTargetsSameCount(t, m1.disk.files, r.m.disk.files, action, t.Size());
    if ordered {
      SameTargetsSamePrefix(t, m1.disk.files, r.m.disk.files, k1);
    }
  }

  lemma {:induction false} SameTargetsSameCount(t: Txn, files: Files, files': Files, action: RecoveryAction, n: nat)
    requires SameTargets(t, files, files') && n <= t.Size()
    ensures Remaining(t, files', action, n) == Remaining(t, files, action, n)
  {
    if n > 0 {
      SameEntrySameLook(files, files', t.plan.changes[n - 1].path);
      SameTargetsSameCount(t, files, files', action, n - 1);
    }
  }

  lemma EndsFrom(t: Txn, d: Disk, d': Disk, action: RecoveryAction, r: Run)
    requires RecoveryEnds(t, d', action, r) && d'.bundles == d.bundles
    ensures RecoveryEnds(t, d, action, r)
  {
  }

  lemma StopIsAnEnd(t: Txn, d: Disk, action: RecoveryAction, r: Run)
    requires r.Halt? && Live(t, r.m.disk) && EitherWay(t, r.m.disk.files) && Framed(t, r.m.disk.files)
    requires r.m.disk.bundles == d.bundles
    ensures RecoveryEnds(t, d, action, r)
  {
  }

  lemma EndsIgnoreLock(t: Txn, d: Disk, action: RecoveryAction, r: Run)
    requires RecoveryEnds(t, d, action, r)
    ensures RecoveryEnds(t, d, action, Unlocked(r))
  {
    hide EitherWay, Framed, BundleKept, Reached;
  }

  // ----- One recovery -----

  /** The choices of an operator who recovers: which way, and the writes the attempt gets before it is cut off. */
  datatype Attempt = Attempt(controllerID: string, reason: string, action: RecoveryAction, writes: nat, now: int)

  function Attempted(root: Root, d: Disk, a: Attempt): Run {
    Recover(root, Machine(d, a.writes), a.controllerID, a.reason, a.action, a.now)
  }

  ghost predicate Offers(t: Txn, d: Disk, a: Attempt)
    requires Live(t, d)
  {
    && a.controllerID != "" && a.reason != "" && InputsResolve(t.root, t.plan)
    && Offered(ClassificationAt(t, d), a.action)
  }

  /** The one thing besides the write budget that can stop an offered recovery. */
  ghost predicate Unobstructed(t: Txn, files: Files, a: Attempt) {
    if a.action == Rollback then NoDirectoryMade(t, files) else ReceiptAccepted(t, files, a.now)
  }

  lemma RunUnfolds(root: Root, d: Disk, plan: Plan, s: Snapshot, writes: nat, now: int)
    requires LoadSnapshot(root, d) == Ok(s) && MatchesEvidence(plan.metadata, s.bundle.journal)
    requires plan.id != NoPlanID && plan.workspace == root.path && !d.locked
    ensures RecoveryRun(root, Machine(d, writes), plan, plan.id, now) ==
      if writes == 0 then Halt(Machine(d, 0), WriteRefused)
      else Unlocked(RecoveryBody(root, Machine(d.(locked := true), writes - 1), plan, s.bundle, now))
  {
    hide LoadSnapshot, RecoveryBody, MatchesEvidence;
  }

  lemma LoadedIsFor(t: Txn, d: Disk)
    requires Sound(t) && Live(t, d)
    ensures BundleFor(t, LoadedBundle(t, d))
  {
    LoadedJournal(t, JournalAt(t, d));
    SoundFacts(t);
  }

  /** An attempt either stops before it touches anything, or runs RecoveryBody on a prepared machine. */
  lemma AttemptUnfolds(t: Txn, d: Disk, a: Attempt, k: nat, ordered: bool) returns (plan: Plan)
    requires Sound(t) && Holds(t, d) && !d.locked && a.action in {Rollback, Continue}
    requires ordered ==> AtPrefix(t, d.files, k)
    ensures !Offers(t, d, a) || a.writes == 0 ==> Attempted(t.root, d, a).Halt? && Attempted(t.root, d, a).m.disk == d
    ensures Offers(t, d, a) && a.writes > 0 ==>
      var m := Machine(d.(locked := true), a.writes - 1);
      && Prepared(t, d, m, plan, LoadedBundle(t, d), a.action, k, ordered)
      && Attempted(t.root, d, a) == Unlocked(RecoveryBody(t.root, m, plan, LoadedBundle(t, d), a.now))
  {
    hide Sound, EitherWay, Framed, BundleKept, PlanRecovery, LoadSnapshot, ClassificationOf, InputsResolve, ObserveAll,
      RecoveryRun,
      RecoveryBody, RecoveryList, AtPrefix;
    RecoveryIsPlanned(t, d, a.controllerID, a.reason, a.action);
    var planned := PlanRecovery(t.root, d, a.controllerID, a.reason, a.action);
    plan := if planned.Ok? then planned.value else t.plan;
    if planned.Ok? {
      SnapshotLoads(t, d);
      RunUnfolds(t.root, d, plan, LoadSnapshot(t.root, d).value, a.writes, a.now);
      LoadedIsFor(t, d);
    }
  }

  /** Recovery, cut off at any write: the transaction stays recoverable, or it is over and the files are wholly
      on the chosen side. The published prefix moves one way. A rollback that would have to take a directory
      back is refused with the disk unchanged, and given enough writes an offered recovery goes through exactly
      when nothing obstructs it; every write of its list moves one more path to the chosen side. */
  lemma RecoveryKeeps(t: Txn, d: Disk, a: Attempt, k: nat, ordered: bool) returns (k': nat)
    requires Sound(t) && Holds(t, d) && !d.locked && a.action in {Rollback, Continue}
    requires ordered ==> AtPrefix(t, d.files, k)
    ensures var r := Attempted(t.root, d, a);
      && RecoveryEnds(t, d, a.action, r) && !r.m.disk.locked
      && (ordered ==> Moves(a.action, k, k') && AtPrefix(t, r.m.disk.files, k'))
      && (!Offers(t, d, a) || (a.action == Rollback && !NoDirectoryMade(t, d.files)) ==> r.Halt? && r.m.disk == d)
      && (a.writes >= t.Size() + 4 ==> (r.Go? <==> Offers(t, d, a) && Unobstructed(t, d.files, a)))
      && (a.action == Continue && !ReceiptAccepted(t, d.files, a.now) ==> r.Halt? && OutsideKept(t, d.files, r.m.disk.files))
      && (Offers(t, d, a) && Unobstructed(t, d.files, a) && a.writes > 0 ==>
            Progressed(t, d.files, r.m.disk.files, a.action, a.writes - 1))
  {
    hide Sound, EitherWay, Framed, Live, RecoveryBody, AtPrefix, NoDirectoryMade, AllBeforeHold, RecoveryEnds,
      Attempted,
      PlanIs, BundleFor, ClassificationAt, InputsResolve, Prepared, ReceiptAccepted, Progressed;
    k' := k;
    var plan := AttemptUnfolds(t, d, a, k, ordered);
    if Offers(t, d, a) && a.writes > 0 {
      var m, bundle := Machine(d.(locked := true), a.writes - 1), LoadedBundle(t, d);
      var r := RecoveryBody(t.root, m, plan, bundle, a.now);
      hide LoadedBundle;
      if AllBeforeHold(t.root, d.files, plan.changes) {
        PreparedList(t, d, m, plan, bundle, a.action, k, ordered);
        k' := BodyEnds(t, d, m, plan, bundle, a.action, a.now, k, ordered);
        EndsIgnoreLock(t, d, a.action, r);
      } else {
        BodyIsRefused(t, d, m, plan, bundle, a.action, a.now, k, ordered);
      }
    } else {
      StopIsAnEnd(t, d, a.action, Attempted(t.root, d, a));
    }
  }

  lemma PreparedList(t: Txn, d: Disk, m: Machine, plan: Plan, bundle: Bundle, action: RecoveryAction, k: nat,
                     ordered: bool)
    requires Prepared(t, d, m, plan, bundle, action, k, ordered) && AllBeforeHold(t.root, d.files, plan.changes)
    ensures action == Rollback ==> NoDirectoryMade(t, d.files)
  {
    hide Sound, Holds, AllBeforeHold, NoDirectoryMade, RecoveryList;
    RollbackPassesBefore(t, d);
  }
}
