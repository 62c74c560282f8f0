/** Whole entries, permissions included: what a transaction leaves at each of its paths, whichever way it ends. */
module EntryProofs {
  import opened Wrappers
  import opened Records
  import opened Planning
  import opened Transactions
  import opened Engine
  import opened Invariants
  import opened StagingProofs
  import opened ApplyProofs
  import opened RecoveryProofs
  import opened RedoUndoProofs
  import opened RecoveryOutcomes
  import opened Runs
  import opened Budgets

  /** The entry a change writes. */
  function Entry(c: Change): Option<Node> {
    match c.kind
    case CreateDir => Some(Directory(c.mode))
    case CreateFile => Some(File(c.content, c.mode))
    case UpdateFile => Some(File(c.content, c.mode))
    case _ => None
  }

  /** Staging itself has made this path's directory. */
  ghost predicate MadeByStaging(t: Txn, path: string) {
    Get(StagedFiles(t.origin), path) != Get(t.origin, path)
  }

  /** A change that leaves kind and content as they are; only permissions can differ. */
  predicate Silent(c: Change) {
    BeforeState(c) == AfterState(c)
  }

  /** The entry at change i's path once the change is published. */
  ghost function AfterEntry(t: Txn, c: Change): Option<Node> {
    if MadeByStaging(t, c.path) then Get(StagedFiles(t.origin), c.path) else Entry(c)
  }

  /** The path of c holds exactly its old entry or exactly its new one, as its side tells. */
  ghost predicate ExactAt(t: Txn, files: Files, c: Change) {
    && (MadeByStaging(t, c.path) ==> Get(files, c.path) == AfterEntry(t, c))
    && (!Silent(c) && Look(files, c.path) == AfterState(c) ==> Get(files, c.path) == AfterEntry(t, c))
    && (!Silent(c) && Look(files, c.path) == BeforeState(c) ==> Get(files, c.path) == Get(t.origin, c.path))
  }

  ghost predicate Exact(t: Txn, files: Files) {
    forall i :: 0 <= i < t.Size() ==> ExactAt(t, files, t.plan.changes[i])
  }

  lemma SameTargetsStayExact(t: Txn, files: Files, files': Files)
    requires Exact(t, files) && SameTargets(t, files, files')
    ensures Exact(t, files')
  {
    hide BeforeState, AfterState, Look, AfterEntry, MadeByStaging;
    forall i | 0 <= i < t.Size()
      ensures ExactAt(t, files', t.plan.changes[i])
    {
      assert ExactAt(t, files, t.plan.changes[i]);
      SameEntrySameLook(files, files', t.plan.changes[i].path);
    }
  }

  // ----- Apply -----

  lemma StagedIsExact(t: Txn)
    requires Sound(t)
    ensures Exact(t, StagedFiles(t.origin))
  {
    hide EncodablePlan, ValidJournal, StagedJournal, InputsHold, WellFormed, StagedFiles, Foreseen;
    forall i | 0 <= i < t.Size()
      ensures ExactAt(t, StagedFiles(t.origin), t.plan.changes[i])
    {
      StagedChange(t, i);
      assert SoundChange(t, t.plan.changes[i]);
      StagedSide(t, t.plan.changes[i]);
    }
  }

  lemma StagedSide(t: Txn, c: Change)
    requires Look(t.origin, c.path) == BeforeState(c) && ProperTree(t.origin)
    ensures ExactAt(t, StagedFiles(t.origin), c)
  {
    hide StagedFiles, BeforeState, AfterState;
    StagedEntry(t.origin, c.path);
    if !MadeByStaging(t, c.path) {
      SameEntrySameLook(t.origin, StagedFiles(t.origin), c.path);
    }
  }

  /** One path now holds the new entry of its change, or its old one again. */
  lemma WrittenIsExact(t: Txn, files: Files, files': Files, i: nat)
    requires Exact(t, files) && DistinctPaths(t.plan.changes) && i < t.Size()
    requires MovedOnly(files, files', t.plan.changes[i].path) && !MadeByStaging(t, t.plan.changes[i].path)
    requires var c := t.plan.changes[i];
      Get(files', c.path) == if Look(files', c.path) == AfterState(c) then Entry(c) else Get(t.origin, c.path)
    ensures Exact(t, files')
  {
    hide BeforeState, AfterState, Look, MadeByStaging;
    forall k | 0 <= k < t.Size()
      ensures ExactAt(t, files', t.plan.changes[k])
    {
      var c := t.plan.changes[k];
      assert ExactAt(t, files, c);
      if k != i {
        assert c.path != t.plan.changes[i].path;
        SameEntrySameLook(files, files', c.path);
      }
    }
  }

  lemma TargetsAreDistinct(t: Txn)
    requires Sound(t)
    ensures DistinctPaths(t.plan.changes)
  {
    SoundFacts(t);
  }

  lemma PublishedEntry(m: Machine, c: Change)
    ensures var r := Publish(m, c);
      && (r.Halt? ==> r.m == m)
      && (r.Go? ==> Get(r.m.disk.files, c.path) == Entry(c) && MovedOnly(m.disk.files, r.m.disk.files, c.path))
      && (r.Go? && c.kind == CreateDir ==> Get(m.disk.files, c.path) == None)
  {
  }

  /** A publication from an exact disk leaves an exact disk. */
  lemma PublicationStaysExact(t: Txn, m: Machine, i: nat)
    requires Sound(t) && Exact(t, m.disk.files) && i < t.Size()
    ensures Exact(t, Publish(m, t.plan.changes[i]).m.disk.files)
  {
    hide Exact, MadeByStaging, Entry, Look, AfterState, Publish, MovedOnly, Sound, DistinctPaths;
    var c := t.plan.changes[i];
    PublishedEntry(m, c);
    if Publish(m, c).Go? {
      TargetsAreDistinct(t);
      StagedTargetIsThere(t, m.disk.files, i);
      EntryIsAfter(t, Publish(m, c).m.disk.files, i);
      WrittenIsExact(t, m.disk.files, Publish(m, c).m.disk.files, i);
    }
  }

  /** A directory that staging made is there, and only a directory change has such a path. */
  lemma StagedTargetIsThere(t: Txn, files: Files, i: nat)
    requires Sound(t) && Exact(t, files) && i < t.Size()
    ensures var c := t.plan.changes[i]; MadeByStaging(t, c.path) ==> c.kind == CreateDir && Get(files, c.path).Some?
  {
    var c := t.plan.changes[i];
    StagedChange(t, i);
    StagedEntry(t.origin, c.path);
    assert SoundChange(t, c) && ExactAt(t, files, c);
    hide Sound, StagedFiles, Foreseen;
  }

  lemma EntryIsAfter(t: Txn, files: Files, i: nat)
    requires Sound(t) && i < t.Size() && Get(files, t.plan.changes[i].path) == Entry(t.plan.changes[i])
    ensures Look(files, t.plan.changes[i].path) == AfterState(t.plan.changes[i])
  {
    assert SoundChange(t, t.plan.changes[i]);
  }

  lemma ActionStaysExact(t: Txn, m: Machine, j: Journal, i: nat)
    requires Sound(t) && Exact(t, m.disk.files) && i < t.Size() == |j.actions|
    ensures Exact(t, PublishAction(t.root, m, t.plan, j, i).m.disk.files)
  {
    hide Sound, Exact, InputsHold, AfterHolds, Publish, CanTransition, ChangePaths;
    var r1 := Transition(m, j, i, InProgress);
    if r1.Go? {
      PublicationStaysExact(t, r1.m, i);
      RecordFiles(t.root, r1.m, t.plan.changes[i], j, i);
      hide PublishAndRecord;
    }
  }

  lemma {:induction false} LoopStaysExact(t: Txn, m: Machine, j: Journal, i: nat)
    requires Sound(t) && Exact(t, m.disk.files) && i <= t.Size() == |j.actions|
    ensures Exact(t, PublishFrom(t.root, m, t.plan, j, t.bootstrap, i).m.disk.files)
    decreases t.Size() - i
  {
    hide Sound, Exact, PublishAction;
    if i < t.Size() {
      if Skipped(j, i, t.bootstrap) {
        LoopStaysExact(t, m, j, i + 1);
      } else {
        ActionStaysExact(t, m, j, i);
        var r := PublishAction(t.root, m, t.plan, j, i);
        if r.Go? {
          LoopStaysExact(t, r.m, SetLabel(j, i, Verified), i + 1);
        }
      }
    }
  }

  /** The migration receipt is at its path only once everything is published. */
  ghost predicate ReceiptIsLast(t: Txn, files: Files) {
    var path := t.plan.metadata.migrationReceiptPath;
    AllAfterState(t, files) || Get(files, path) == Get(StagedFiles(t.origin), path)
  }

  /** What both an interrupted Apply and any recovery of it leave. */
  ghost predicate Whole(t: Txn, files: Files) {
    Exact(t, files) && ReceiptIsLast(t, files)
  }

  lemma CompletionStaysWhole(t: Txn, m: Machine, finished: int)
    requires Sound(t) && Exact(t, m.disk.files) && AllAfterState(t, m.disk.files)
    ensures Whole(t, Complete(t.root, m, t.plan, t.journal, finished).m.disk.files)
  {
    hide Sound, Exact, AllAfterState, ReceiptFor, ReceiptHashes, SameTargets;
    ReceiptTargets(t, m, t.journal.planID, t.plan.changes, finished);
    var r1 := WriteMigrationReceipt(t.root, m, t.journal.planID, t.plan.metadata, t.plan.changes, finished);
    SameTargetsStayExact(t, m.disk.files, r1.m.disk.files);
    SameTargetsAllAfter(t, m.disk.files, r1.m.disk.files);
    hide WriteMigrationReceipt;
  }

  lemma ReceiptTargets(t: Txn, m: Machine, planID: PlanID, changes: seq<Change>, at: int)
    requires Sound(t)
    ensures SameTargets(t, m.disk.files, WriteMigrationReceipt(t.root, m, planID, t.plan.metadata, changes, at).m.disk.files)
  {
    hide Sound, ReceiptFor;
    ReceiptPathIsOutside(t);
    forall i | 0 <= i < t.Size()
      ensures t.plan.changes[i].path != t.plan.metadata.migrationReceiptPath
    {
      assert t.plan.changes[i] in t.plan.changes;
    }
  }

  lemma SameTargetsAllAfter(t: Txn, files: Files, files': Files)
    requires SameTargets(t, files, files') && AllAfterState(t, files)
    ensures AllAfterState(t, files')
  {
    forall i | 0 <= i < t.Size()
      ensures Look(files', t.plan.changes[i].path) == Look(files, t.plan.changes[i].path)
    {
      SameEntrySameLook(files, files', t.plan.changes[i].path);
    }
  }

  // ----- Recovery -----

  /** e takes the path of change i to one of its two entries, whole. */
  ghost predicate Fits(t: Txn, e: Change, i: nat) {
    && i < t.Size() && RestorableChange(e)
    && var c := t.plan.changes[i];
      && e.path == c.path && !MadeByStaging(t, c.path) && !Silent(c)
      && (|| (AfterState(e) == AfterState(c) && Entry(e) == Entry(c))
          || (AfterState(e) == BeforeState(c) && Entry(e) == Get(t.origin, c.path)))
  }

  lemma EntryLooksAfter(files: Files, e: Change)
    requires RestorableChange(e) && Get(files, e.path) == Entry(e)
    ensures Look(files, e.path) == AfterState(e)
  {
  }

  lemma FittingStaysExact(t: Txn, m: Machine, e: Change, i: nat)
    requires Sound(t) && Exact(t, m.disk.files) && Fits(t, e, i)
    ensures Exact(t, Publish(m, e).m.disk.files)
  {
    hide Exact, MadeByStaging, Entry, Look, AfterState, BeforeState, Publish, MovedOnly, Sound, DistinctPaths, RestorableChange;
    PublishedEntry(m, e);
    if Publish(m, e).Go? {
      TargetsAreDistinct(t);
      EntryLooksAfter(Publish(m, e).m.disk.files, e);
      WrittenIsExact(t, m.disk.files, Publish(m, e).m.disk.files, i);
    }
  }

  ghost predicate AllFit(t: Txn, list: seq<Change>) {
    forall e :: e in list ==> exists i :: Fits(t, e, i)
  }

  lemma {:induction false} ListStaysExact(t: Txn, m: Machine, list: seq<Change>)
    requires Sound(t) && Exact(t, m.disk.files) && AllFit(t, list)
    ensures Exact(t, PublishList(t.root, m, list).m.disk.files)
    decreases |list|
  {
    hide Sound, Exact, Fits, Publish, AfterHolds;
    if list != [] {
      assert list[0] in list && forall e :: e in list[1..] ==> e in list;
      var i: nat :| Fits(t, list[0], i);
      FittingStaysExact(t, m, list[0], i);
      var r := Publish(m, list[0]);
      if r.Go? {
        ListStaysExact(t, r.m, list[1..]);
      }
    }
  }

  lemma RedoFits(t: Txn, d: Disk, e: Change) returns (x: nat)
    requires Sound(t) && Holds(t, d) && Exact(t, d.files) && e in RecoveryList(t, d, Continue)
    ensures Fits(t, e, x)
  {
    hide Sound, Live, EitherWay, Framed, ObservationAt, MatchesAfter, MatchesBefore, LiveState, Look, Exact,
      RedoFrom, BeforeState, AfterState, Publishable, NeedsBackup, MadeByStaging;
    var j, o := JournalAt(t, d), ObservationAt(t, d);
    SidesAreSeen(t, d);
    RedoMembers(j, o, 0);
    var y :| 0 <= y < |j.actions| && e == j.actions[y].change && !MatchesAfter(e, LiveState(o, e.path));
    x := y;
    SoundEntry(t, d.files, x);
    PublishableIsRestorable(e);
    NotMadeByStaging(t, d.files, x);
  }

  lemma PublishableIsRestorable(c: Change)
    requires Publishable(c)
    ensures RestorableChange(c)
  {
  }

  /** A path that is not after was not made by staging. */
  lemma NotMadeByStaging(t: Txn, files: Files, x: nat)
    requires Sound(t) && Exact(t, files) && x < t.Size()
    ensures var c := t.plan.changes[x];
      MadeByStaging(t, c.path) ==> c.kind == CreateDir && Look(files, c.path) == AfterState(c)
  {
    StagedTargetIsThere(t, files, x);
    var c := t.plan.changes[x];
    StagedEntry(t.origin, c.path);
    assert ExactAt(t, files, c);
    hide Sound, Exact, StagedFiles;
    if MadeByStaging(t, c.path) {
      SameEntrySameLook(files, StagedFiles(t.origin), c.path);
    }
  }

  lemma UndoFits(t: Txn, d: Disk, e: Change) returns (x: nat)
    requires Sound(t) && Holds(t, d) && Exact(t, d.files) && e in RecoveryList(t, d, Rollback) && NoDirectoryMade(t, d.files)
    ensures Fits(t, e, x)
  {
    hide Sound, Live, EitherWay, Framed, ObservationAt, MatchesAfter, MatchesBefore, LiveState, Look, Exact,
      UndoBelow, BeforeState, AfterState, UndoOf, Publishable, NeedsBackup, MadeByStaging;
    var j, o := JournalAt(t, d), ObservationAt(t, d);
    SidesAreSeen(t, d);
    UndoMembers(j, o, |j.actions|);
    x :| 0 <= x < |j.actions| && e == UndoOf(j, o, x) && !MatchesBefore(j.actions[x].change, LiveState(o, j.actions[x].change.path));
    SoundEntry(t, d.files, x);
    NotMadeByStaging(t, d.files, x);
    UndoneEntry(t, d, x);
  }

  /** The undo of a published change writes back the entry it had, permissions included. */
  lemma UndoneEntry(t: Txn, d: Disk, x: nat)
    requires Sound(t) && Holds(t, d) && x < t.Size() && t.plan.changes[x].kind != CreateDir
    ensures |JournalAt(t, d).actions| == t.Size()
    ensures var c, u := t.plan.changes[x], UndoOf(JournalAt(t, d), ObservationAt(t, d), x);
      && RestorableChange(u) && u.path == c.path && AfterState(u) == BeforeState(c) && Entry(u) == Get(t.origin, c.path)
  {
    hide Sound, Live, EitherWay, Framed, ObserveAll, Look, BackupContent, ValidJournal, StagedAction, SameButLabels,
      ActionPaths, BackupGood, ModePrivate;
    var j, o := JournalAt(t, d), ObservationAt(t, d);
    var c := t.plan.changes[x];
    JournalIsKept(t, d);
    LoadedJournal(t, j);
    BackupsAreObserved(t, d, x);
    SoundEntry(t, d.files, x);
    OriginEntry(t, x);
    match c.kind {
      case CreateFile =>
      case UpdateFile =>
      case DeleteFile =>
    }
  }

  lemma OriginEntry(t: Txn, x: nat)
    requires Sound(t) && x < t.Size()
    ensures var c := t.plan.changes[x];
      && Publishable(c) && (c.kind == CreateFile ==> Get(t.origin, c.path) == None)
      && (NeedsBackup(c) ==> Get(t.origin, c.path).Some? && Get(t.origin, c.path).value.File?)
  {
    assert SoundChange(t, t.plan.changes[x]);
  }

  /** A recovery list leads from one exact disk to another. */
  lemma RecoveryListFits(t: Txn, d: Disk, action: RecoveryAction)
    requires Sound(t) && Holds(t, d) && Exact(t, d.files) && action in {Rollback, Continue}
    requires action == Rollback ==> NoDirectoryMade(t, d.files)
    ensures AllFit(t, RecoveryList(t, d, action))
  {
    hide Sound, Live, EitherWay, Framed, Exact, RecoveryList, Fits, NoDirectoryMade;
    forall e | e in RecoveryList(t, d, action)
      ensures exists i :: Fits(t, e, i)
    {
      if action == Continue {
        var i := RedoFits(t, d, e);
      } else {
        var i := UndoFits(t, d, e);
      }
    }
  }

  lemma FinishTargets(t: Txn, m: Machine, bundle: Bundle, action: RecoveryAction, now: int)
    requires Sound(t) && BundleFor(t, bundle)
    ensures SameTargets(t, m.disk.files, FinishRecovery(t.root, m, bundle, action, now).m.disk.files)
    ensures action == Rollback ==> FinishRecovery(t.root, m, bundle, action, now).m.disk.files == m.disk.files
  {
    hide Sound, Canonically, WriteMigrationReceipt, SameTargets;
    SameTargetsAsSelf(t, m.disk.files);
    ReceiptTargets(t, m, bundle.journal.planID, Canonically(t.plan.changes), now);
  }

  /** The recovery of a prepared machine, at whatever write it stops. */
  lemma BodyStaysExact(t: Txn, d: Disk, m: Machine, plan: Plan, bundle: Bundle, action: RecoveryAction, now: int)
    requires Prepared(t, d, m, plan, bundle, action, 0, false) && AllBeforeHold(t.root, d.files, plan.changes)
    requires Exact(t, d.files)
    ensures Exact(t, RecoveryBody(t.root, m, plan, bundle, now).m.disk.files)
  {
    hide Sound, AllBeforeHold, EitherWay, Framed, Live, RecoveryList, BundleFor, PublishList, FinishRecovery, AtPrefix,
      SameTargets, Exact, NoDirectoryMade, AllFit;
    PreparedList(t, d, m, plan, bundle, action, 0, false);
    RecoveryListFits(t, d, action);
    ListStaysExact(t, m, plan.changes);
    var r1 := PublishList(t.root, m, plan.changes);
    if r1.Go? {
      FinishTargets(t, r1.m, bundle, action, now);
      SameTargetsStayExact(t, r1.m.disk.files, FinishRecovery(t.root, r1.m, bundle, action, now).m.disk.files);
    }
  }

  lemma BodyKeepsReceiptLast(t: Txn, d: Disk, m: Machine, plan: Plan, bundle: Bundle, action: RecoveryAction, now: int)
    requires Prepared(t, d, m, plan, bundle, action, 0, false) && AllBeforeHold(t.root, d.files, plan.changes)
    requires ReceiptIsLast(t, d.files) && !AllAfterState(t, d.files)
    ensures ReceiptIsLast(t, RecoveryBody(t.root, m, plan, bundle, now).m.disk.files)
  {
    hide Sound, AllBeforeHold, EitherWay, Framed, Live, RecoveryList, BundleFor, PublishList, FinishRecovery, AtPrefix,
      SameTargets, OutsideKept, AllAfterState, AllBeforeState, StagedFiles;
    var k := ListMoves(t, d, m, action, 0, false);
    var r1 := PublishList(t.root, m, plan.changes);
    ReceiptPathIsOutside(t);
    OutsideMeansKept(t, d.files, r1.m.disk.files, t.plan.metadata.migrationReceiptPath);
    if r1.Go? {
      FinishTargets(t, r1.m, bundle, action, now);
      if action == Continue {
        SameTargetsAllAfter(t, r1.m.disk.files, FinishRecovery(t.root, r1.m, bundle, action, now).m.disk.files);
      }
    }
  }

  /** One recovery, cut off at any write, leaves each path with exactly one of its two entries, and the migration
      receipt's path alone until everything is published. */
  lemma AttemptStaysWhole(t: Txn, d: Disk, a: Attempt)
    requires Sound(t) && Holds(t, d) && !d.locked && a.action in {Rollback, Continue} && Whole(t, d.files)
    ensures Whole(t, Attempted(t.root, d, a).m.disk.files)
  {
    hide Sound, EitherWay, Framed, Live, RecoveryBody, AllBeforeHold, Attempted, PlanIs, BundleFor, Prepared, Exact,
      AllAfterState, StagedFiles, Offers, LoadedBundle;
    FinalAfterOne(t, d, a);
    var plan := AttemptUnfolds(t, d, a, 0, false);
    if Offers(t, d, a) && a.writes > 0 {
      var m, bundle := Machine(d.(locked := true), a.writes - 1), LoadedBundle(t, d);
      if AllBeforeHold(t.root, d.files, plan.changes) {
        BodyStaysExact(t, d, m, plan, bundle, a.action, a.now);
        if !AllAfterState(t, d.files) {
          BodyKeepsReceiptLast(t, d, m, plan, bundle, a.action, a.now);
        }
      } else {
        BodyIsRefused(t, d, m, plan, bundle, a.action, a.now, 0, false);
      }
    }
  }

  lemma {:induction false} AttemptsStayWhole(t: Txn, d: Disk, attempts: seq<Attempt>)
    requires Sound(t) && Holds(t, d) && !d.locked && Chosen(attempts) && Whole(t, d.files)
    ensures Whole(t, AfterAttempts(t.root, d, attempts).files)
    decreases |attempts|
  {
    hide Sound, Holds, Attempted, Whole, RecoveryEnds;
    if attempts != [] {
      var a := attempts[0];
      var d1 := Attempted(t.root, d, a).m.disk;
      var k := RecoveryKeeps(t, d, a, 0, false);
      EndsAreSteady(t, d, a.action, Attempted(t.root, d, a));
      AttemptStaysWhole(t, d, a);
      if d1.pointer.Some? {
        AttemptsStayWhole(t, d1, attempts[1..]);
      } else {
        NothingToRecover(t.root, d1, attempts[1..]);
      }
    }
  }

  // ----- Whole runs -----

  lemma StagedRunStaysWhole(t: Txn, m: Machine, finished: int)
    requires Sound(t) && |t.journal.actions| == t.Size() && LabelledTo(t, t.journal, 0) && PublishedTo(t, m.disk.files, 0)
    requires Journaled(t, m.disk, t.journal) && LabelsTrue(t, m.disk) && m.disk.files == StagedFiles(t.origin)
    ensures Whole(t, AfterStaging(t.root, m, t.plan, t.journal, t.bootstrap, finished).m.disk.files)
  {
    hide Sound, LabelledTo, LabelsTrue, Live, StagedFiles, PublishFrom, AfterState, Complete, AllAfterHold, AllAfterState, Exact,
      EitherWay, Framed;
    StagedIsExact(t);
    LoopStaysExact(t, m, t.journal, 0);
    var k := LoopKeeps(t, m, t.journal, 0);
    var r := PublishFrom(t.root, m, t.plan, t.journal, t.bootstrap, 0);
    ReceiptPathIsOutside(t);
    PublishedIsFramed(t, r.m.disk.files, k);
    if r.Go? {
      CompletionStaysWhole(t, r.m, finished);
    }
  }

  /** Apply, cut off at any write: if it published anything, each path has exactly one of its two entries, and the
      migration receipt's path is as before unless everything is published. */
  lemma BodyIsWhole(t: Txn, m: Machine, started: int, finished: int)
    requires t == TxnOf(t.root, m.disk.files, t.plan, started)
    requires ProperTree(t.origin) && WellFormed(t.plan) && t.plan.workspace == t.root.path && m.disk.pointer.None?
    ensures var r := ApplyBody(t.root, m, t.plan, started, finished);
      r.m.disk.pointer.Some? || (r.Go? && t.plan.changes != []) ==> Whole(t, r.m.disk.files)
  {
    hide InputsHold, AllBeforeHold, EncodablePlan, ValidJournal, WellFormed, ProperTree, StagedFiles, FreshBundle,
      Sound, Complete, PublishFrom, Stage, LabelsTrue, Journaled, LabelledTo, PublishedTo, StagedJournal, AllAfterHold, Whole;
    if InputsHold(m.disk.files, t.plan.inputs, {}) && AllBeforeHold(t.root, m.disk.files, t.plan.changes) && t.plan.changes != [] {
      StagingIsAllOrNothing(t.root, m, t.plan, t.journal, t.bootstrap);
      var r1 := Stage(t.root, m, t.plan, t.journal, t.bootstrap);
      if r1.Go? {
        StagedIsSound(t, started, r1.m.disk);
        LabelledFacts(t, t.journal, 0);
        StagedRunStaysWhole(t, r1.m, finished);
      }
    }
  }

  lemma ApplyIsWhole(root: Root, m: Machine, plan: Plan, approved: PlanID, started: int, finished: int)
    requires WellFormed(plan) && ProperTree(m.disk.files) && m.disk.pointer.None?
    ensures var r := ApplyRun(root, m, plan, approved, started, finished);
      var t := TxnOf(root, m.disk.files, plan, started);
      r.m.disk.pointer.Some? || (r.Go? && plan.changes != []) ==> Whole(t, r.m.disk.files)
  {
    hide WellFormed, ProperTree, ApplyBody, StagedFiles, StagedJournal, Whole;
    var t := TxnOf(root, m.disk.files, plan, started);
    if plan.workspace == root.path {
      if NAMESPACE in m.disk.files {
        var r1 := AcquireLock(m, plan.operation == "purge-abort");
        if r1.Go? {
          BodyIsWhole(t, r1.m, started, finished);
        }
      } else {
        BodyIsWhole(t, m, started, finished);
      }
    }
  }
}
