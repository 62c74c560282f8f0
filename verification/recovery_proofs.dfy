/** Recovery: what it classifies, what it plans, and what any interrupted recovery leaves behind. */
module RecoveryProofs {
  import opened Wrappers
  import opened Records
  import opened Planning
  import opened Transactions
  import opened Engine
  import opened Invariants

  // ----- Observation and classification -----

  /** The bundle recovery loads for t. */
  ghost function LoadedBundle(t: Txn, d: Disk): Bundle
    requires Live(t, d)
  {
    var b := d.bundles[t.ID()];
    Bundle(PointerOf(t.journal), b.journal.value, Persisted(t.plan), b.receipt)
  }

  lemma LoadedJournal(t: Txn, j: Journal)
    requires Sound(t) && SameButLabels(t.journal, j)
    ensures ValidJournal(j) && |j.actions| == t.Size()
    ensures j.transactionID == t.ID() && j.workspace == t.root.path && j.planID == t.plan.id && j.operation == t.plan.operation
    ensures ActionPaths(j.actions) == ChangePaths(t.plan.changes)
    ensures forall i :: 0 <= i < t.Size() ==>
      && j.actions[i].change == t.plan.changes[i]
      && j.actions[i].(state := Pending) == StagedAction(t.origin, t.plan.changes[i], i, t.bootstrap).(state := Pending)
  {
    hide Sound, RestorableChange, ValidAction, NeedsBackup, ValidJournal, ValidPointer, PlanAgrees, DistinctPaths,
      ActionPaths;
    SoundFacts(t);
    LabelsKeepValidity(t.journal, j);
    assert j.(actions := []) == t.journal.(actions := []);
    forall i | 0 <= i < t.Size()
      ensures j.actions[i].change == t.plan.changes[i]
      ensures j.actions[i].(state := Pending) == StagedAction(t.origin, t.plan.changes[i], i, t.bootstrap).(state := Pending)
    {
      assert t.journal.actions[i].(state := Pending) == j.actions[i].(state := Pending);
    }
    SamePaths(j.actions, t.plan.changes);
  }

  lemma SamePaths(actions: seq<Action>, changes: seq<Change>)
    requires |actions| == |changes| && forall i :: 0 <= i < |changes| ==> actions[i].change == changes[i]
    ensures ActionPaths(actions) == ChangePaths(changes)
  {
    forall q
      ensures q in ActionPaths(actions) <==> q in ChangePaths(changes)
    {
      if q in ActionPaths(actions) {
        var i :| 0 <= i < |actions| && actions[i].change.path == q;
        assert changes[i] in changes;
      }
      if q in ChangePaths(changes) {
        var i := ChangePathIndex(changes, q);
        assert actions[i] in actions;
      }
    }
  }

  lemma LoadedIsValid(t: Txn, d: Disk)
    requires Sound(t) && Live(t, d)
    ensures ValidBundle(LoadedBundle(t, d))
    ensures AllResolve(t.root, LoadedBundle(t, d).journal, t.plan.inputs) <==> InputsResolve(t.root, t.plan)
  {
    var j := d.bundles[t.ID()].journal.value;
    LoadedJournal(t, j);
    SoundFacts(t);
    assert Restorable(Persisted(t.plan));
    forall a | a in j.actions
      ensures t.root.resolves(a.change.path)
    {
      var i :| 0 <= i < |j.actions| && j.actions[i] == a;
      assert SoundChange(t, t.plan.changes[i]);
    }
    hide Sound, ValidJournal, ValidPointer, Restorable, SoundChange, GoodBackup, StagedAction, NeedsBackup;
  }

  /** Recovery finds the bundle exactly when every outside input can be looked up. */
  lemma SnapshotLoads(t: Txn, d: Disk)
    requires Sound(t) && Live(t, d)
    ensures LoadSnapshot(t.root, d).Ok? <==> InputsResolve(t.root, t.plan)
    ensures LoadSnapshot(t.root, d).Ok? ==> LoadSnapshot(t.root, d).value == Snapshot(
      LoadedBundle(t, d),
      ObserveAll(d.files, d.bundles[t.ID()].backups, LoadedBundle(t, d).journal, t.plan.inputs))
  {
    hide Sound, ValidBundle, ValidPointer, ObserveAll, AllResolve, InputsResolve, BundleKept, ValidJournal, PlanAgrees,
      StagedAction, DistinctPaths;
    LoadedIsValid(t, d);
    SoundFacts(t);
    assert d.bundles[t.ID()].journal.Some? && d.bundles[t.ID()].plan == Some(Persisted(t.plan)) by {
      KeptRecords(t, d);
    }
  }

  lemma KeptRecords(t: Txn, d: Disk)
    requires Live(t, d)
    ensures d.bundles[t.ID()].journal.Some? && d.bundles[t.ID()].plan == Some(Persisted(t.plan))
  {
  }

  lemma ObservedEntry(t: Txn, files: Files, i: nat)
    requires i < t.Size() && SoundChange(t, t.plan.changes[i])
    requires Look(files, t.plan.changes[i].path) in {BeforeState(t.plan.changes[i]), AfterState(t.plan.changes[i])}
    ensures Observe(files, t.plan.changes[i].path) == Look(files, t.plan.changes[i].path)
  {
    var c := t.plan.changes[i];
    match c.kind {
      case CreateDir =>
      case CreateFile =>
      case UpdateFile =>
      case DeleteFile =>
    }
  }

  /** On an either-way disk recovery sees exactly which side each path is on. */
  lemma SidesAreObserved(t: Txn, d: Disk)
    requires Sound(t) && Holds(t, d)
    ensures var j := d.bundles[t.ID()].journal.value;
      var o := ObserveAll(d.files, d.bundles[t.ID()].backups, j, t.plan.inputs);
      && |j.actions| == t.Size()
      && forall i :: 0 <= i < t.Size() ==>
           var c := t.plan.changes[i];
           && j.actions[i].change == c
           && LiveState(o, c.path) == Look(d.files, c.path)
           && (MatchesBefore(c, LiveState(o, c.path)) <==> Look(d.files, c.path) == BeforeState(c))
           && (MatchesAfter(c, LiveState(o, c.path)) <==> Look(d.files, c.path) == AfterState(c))
  {
    hide Sound, Live, Framed, EitherWay, ObserveAll, MatchesBefore, MatchesAfter, LiveState, Look, BeforeState,
      AfterState, StagedAction, ValidJournal,
      SameButLabels, ActionPaths;
    JournalIsKept(t, d);
    var j := d.bundles[t.ID()].journal.value;
    LoadedJournal(t, j);
    var o := ObserveAll(d.files, d.bundles[t.ID()].backups, j, t.plan.inputs);
    forall i | 0 <= i < t.Size()
      ensures var c := t.plan.changes[i];
        && LiveState(o, c.path) == Look(d.files, c.path)
        && (MatchesBefore(c, LiveState(o, c.path)) <==> Look(d.files, c.path) == BeforeState(c))
        && (MatchesAfter(c, LiveState(o, c.path)) <==> Look(d.files, c.path) == AfterState(c))
    {
      SideIsObserved(t, d.files, d.bundles[t.ID()].backups, j, i);
    }
  }

  lemma JournalIsKept(t: Txn, d: Disk)
    requires Live(t, d)
    ensures t.ID() in d.bundles
    ensures d.bundles[t.ID()].journal.Some? && SameButLabels(t.journal, d.bundles[t.ID()].journal.value)
  {
  }

  /** The observation shows path i as it is, and on exactly the side it is on. */
  ghost predicate SideObserved(t: Txn, files: Files, o: Observation, i: nat)
    requires i < t.Size()
  {
    var c := t.plan.changes[i];
    && LiveState(o, c.path) == Look(files, c.path)
    && (MatchesBefore(c, LiveState(o, c.path)) <==> Look(files, c.path) == BeforeState(c))
    && (MatchesAfter(c, LiveState(o, c.path)) <==> Look(files, c.path) == AfterState(c))
  }

  lemma SideIsObserved(t: Txn, files: Files, backups: map<nat, Node>, j: Journal, i: nat)
    requires Sound(t) && EitherWay(t, files) && i < t.Size() && ActionPaths(j.actions) == ChangePaths(t.plan.changes)
    ensures SideObserved(t, files, ObserveAll(files, backups, j, t.plan.inputs), i)
  {
    var c := t.plan.changes[i];
    assert SoundChange(t, c) && c in t.plan.changes && c.path in ChangePaths(t.plan.changes);
    ObservedEntry(t, files, i);
    hide Sound, Look, Observe, BeforeState, AfterState, MatchesBefore, MatchesAfter, ActionPaths;
    assert c.kind != DeleteDir && !c.kind.UnknownKind? by {
      KnownKind(c);
    }
    MatchesMeansState(c, LiveState(ObserveAll(files, backups, j, t.plan.inputs), c.path));
  }

  lemma KnownKind(c: Change)
    requires Publishable(c)
    ensures c.kind != DeleteDir && !c.kind.UnknownKind?
  {
  }

  /** A backup passes exactly when its original had the mode backups are written with. */
  lemma BackupsAreObserved(t: Txn, d: Disk, i: nat)
    requires Sound(t) && Live(t, d) && i < t.Size()
    ensures var j := d.bundles[t.ID()].journal.value;
      var o := ObserveAll(d.files, d.bundles[t.ID()].backups, j, t.plan.inputs);
      var c := t.plan.changes[i];
      && |j.actions| == t.Size()
      && (BackupGood(j.actions[i], i, o) <==> ModePrivate(t.origin, c))
      && (NeedsBackup(c) ==> c.path in t.origin)
      && (NeedsBackup(c) ==>
            && j.actions[i].backupMode == t.origin[c.path].mode && t.origin[c.path].File?
            && BackupContent(o, i) == t.origin[c.path].content && HashBytes(BackupContent(o, i)) == c.before)
  {
    var j := d.bundles[t.ID()].journal.value;
    LoadedJournal(t, j);
    var c := t.plan.changes[i];
    assert SoundChange(t, c) && GoodBackup(t, d.bundles[t.ID()], i);
    hide Sound, Live, ValidJournal, SameButLabels, ActionPaths, BackupGood, ObserveBackup, SoundChange, BackupContent;
    if NeedsBackup(c) {
      var a := StagedAction(t.origin, c, i, t.bootstrap);
      assert j.actions[i].(state := Pending) == a.(state := Pending);
      assert j.actions[i].backup == a.backup && j.actions[i].backupMode == a.backupMode && j.actions[i].backupSHA256 == a.backupSHA256;
      assert FitsRecord(t.origin, c.path) && c.before == HashBytes(t.origin[c.path].content) by {
        BackupSourceFacts(t, c);
      }
      var o := ObserveAll(d.files, d.bundles[t.ID()].backups, j, t.plan.inputs);
      assert i in o.backups && o.backups[i] == ObserveBackup(d.bundles[t.ID()].backups, j.actions[i]);
      GoodCopyPasses(j.actions[i], d.bundles[t.ID()].backups, t.origin[c.path].content, i, o);
    } else {
      NoBackupPasses(j.actions[i], i, ObserveAll(d.files, d.bundles[t.ID()].backups, j, t.plan.inputs));
    }
  }

  lemma BackupSourceFacts(t: Txn, c: Change)
    requires SoundChange(t, c) && NeedsBackup(c)
    ensures FitsRecord(t.origin, c.path) && c.before == HashBytes(t.origin[c.path].content)
  {
  }

  lemma NoBackupPasses(a: Action, i: nat, o: Observation)
    requires !NeedsBackup(a.change)
    ensures BackupGood(a, i, o)
  {
  }

  lemma GoodCopyPasses(a: Action, backups: map<nat, Node>, content: Bytes, i: nat, o: Observation)
    requires NeedsBackup(a.change) && a.backup == Some(i) && a.backupSHA256 == HashBytes(content)
    requires |content| <= MAX_RECORD_BYTES
    requires i in backups && backups[i] == File(content, PRIVATE_FILE_MODE)
    requires i in o.backups && o.backups[i] == ObserveBackup(backups, a)
    ensures BackupGood(a, i, o) <==> a.backupMode == PRIVATE_FILE_MODE
    ensures BackupContent(o, i) == content
  {
  }

  lemma ReceiptIsNoInput(t: Txn)
    requires Sound(t)
    ensures forall k :: k in t.plan.inputs ==> k.path != t.plan.metadata.migrationReceiptPath
  {
    assert WellFormed(t.plan);
  }

  lemma SameEntrySameInput(files: Files, files': Files, path: string)
    requires Get(files, path) == Get(files', path)
    ensures ObserveInput(files, path) == ObserveInput(files', path)
  {
  }

  /** Inputs outside the plan read the same to recovery exactly when RecoverySafe says so. */
  lemma InputsAreObserved(t: Txn, d: Disk)
    requires Sound(t) && Live(t, d) && Framed(t, d.files)
    ensures var j := d.bundles[t.ID()].journal.value;
      var o := ObserveAll(d.files, d.bundles[t.ID()].backups, j, t.plan.inputs);
      forall k :: k in t.plan.inputs && k.path !in ChangePaths(t.plan.changes) ==>
        (InputUnchanged(k, o) <==> ObserveInput(StagedFiles(t.origin), k.path) == k.sha256)
  {
    hide Sound, Live, ValidJournal, SameButLabels, StagedAction, ActionPaths, ObserveInput, StagedFiles;
    JournalIsKept(t, d);
    var j := d.bundles[t.ID()].journal.value;
    LoadedJournal(t, j);
    ReceiptIsNoInput(t);
    var o := ObserveAll(d.files, d.bundles[t.ID()].backups, j, t.plan.inputs);
    forall k | k in t.plan.inputs && k.path !in ChangePaths(t.plan.changes)
      ensures InputUnchanged(k, o) <==> ObserveInput(StagedFiles(t.origin), k.path) == k.sha256
    {
      SameEntrySameInput(d.files, StagedFiles(t.origin), k.path);
      assert k.path in o.inputs && o.inputs[k.path] == ObserveInput(d.files, k.path);
    }
  }

  ghost function ClassificationAt(t: Txn, d: Disk): Classification
    requires Live(t, d)
  {
    ClassificationOf(LoadedBundle(t, d),
                     ObserveAll(d.files, d.bundles[t.ID()].backups, LoadedBundle(t, d).journal, t.plan.inputs))
  }

  lemma ActionEvidence(t: Txn, d: Disk)
    requires Sound(t) && Holds(t, d)
    ensures var j := LoadedBundle(t, d).journal;
      var o := ObserveAll(d.files, d.bundles[t.ID()].backups, j, t.plan.inputs);
      ModesPrivate(t.origin, t.plan) <==>
        forall i :: 0 <= i < |j.actions| ==> EitherSide(j.actions[i], o) && BackupGood(j.actions[i], i, o)
  {
    var j := LoadedBundle(t, d).journal;
    var o := ObserveAll(d.files, d.bundles[t.ID()].backups, j, t.plan.inputs);
    SidesAreObserved(t, d);
    hide Sound, Live, Framed, ObserveAll, MatchesBefore, MatchesAfter, ModePrivate, BackupGood;
    forall i | 0 <= i < t.Size()
      ensures EitherSide(j.actions[i], o)
      ensures BackupGood(j.actions[i], i, o) <==> ModePrivate(t.origin, t.plan.changes[i])
    {
      BackupsAreObserved(t, d, i);
    }
  }

  lemma InputEvidence(t: Txn, d: Disk)
    requires Sound(t) && Live(t, d) && Framed(t, d.files)
    ensures var j := LoadedBundle(t, d).journal;
      var o := ObserveAll(d.files, d.bundles[t.ID()].backups, j, t.plan.inputs);
      InputsReadSame(t.origin, t.plan) <==>
        forall k :: 0 <= k < |t.plan.inputs| && t.plan.inputs[k].path !in ActionPaths(j.actions) ==>
          InputUnchanged(t.plan.inputs[k], o)
  {
    LoadedJournal(t, LoadedBundle(t, d).journal);
    InputsAreObserved(t, d);
    hide Sound, Live, Framed, ObserveAll, StagedFiles, ObserveInput, InputUnchanged, ActionPaths, StagedAction,
      ValidJournal;
    forall k | 0 <= k < |t.plan.inputs|
      ensures t.plan.inputs[k] in t.plan.inputs
    {
    }
  }

  lemma EvidenceMeansSafe(t: Txn, d: Disk)
    requires Sound(t) && Holds(t, d)
    ensures EvidenceHolds(LoadedBundle(t, d), ObserveAll(d.files, d.bundles[t.ID()].backups, LoadedBundle(t, d).journal, t.plan.inputs))
      <==> RecoverySafe(t.origin, t.plan)
  {
    ActionEvidence(t, d);
    InputEvidence(t, d);
    hide Sound, Holds, Live, ObserveAll, EitherSide, BackupGood, InputUnchanged, ModesPrivate, InputsReadSame,
      ActionPaths;
  }

  /** The exact classification of every unfinished transaction: complete when every path is after; otherwise
      both ways are open if the plan was recovery-safe before Apply, and a human is needed if it was not. */
  lemma ClassifiedByPlan(t: Txn, d: Disk)
    requires Sound(t) && Holds(t, d)
    ensures ClassificationAt(t, d) ==
      if AllAfterState(t, d.files) then TransactionComplete
      else if RecoverySafe(t.origin, t.plan) then BothAvailable
      else ManualRequired
  {
    hide Sound, Live, EitherWay, Framed, ValidBundle, EvidenceHolds, RecoverySafe, ObserveAll, MatchesAfter,
      MatchesBefore, LiveState,
      Look, BeforeState, AfterState, AllResolve, InputsResolve;
    LoadedIsValid(t, d);
    SidesAreObserved(t, d);
    EvidenceMeansSafe(t, d);
    assert t.Size() > 0 by {
      SoundFacts(t);
    }
  }
}
