/** One transaction, cut off after its first change: the runs in which recovery does less than its documentation exist. */
module CutExamples {
  import opened Wrappers
  import opened Records
  import opened Planning
  import opened Transactions
  import opened Engine
  import opened Invariants
  import opened StagingProofs
  import opened ApplyProofs
  import opened RecoveryProofs
  import opened RecoveryOutcomes
  import opened Readiness
  import opened Examples

  const MADE := ".uawp/made"
  const KEPT := ".uawp/kept"

  /** A directory is made and a file is rewritten. */
  const STEPS: seq<Change> := [
    WithSequence(NewDirectory(MADE, PRIVATE_DIRECTORY_MODE), 10),
    WithSequence(NewUpdateFile(KEPT, PRIVATE_FILE_MODE, HashBytes("old"), "new"), 20)]

  function TwoSteps(): Plan {
    NewPlan("example", ROOT_PATH, STEPS, [], NO_METADATA)
  }

  lemma TwoStepsPlan()
    ensures var p := TwoSteps();
      && Canonical(p) && p.changes == STEPS && p.inputs == [] && p.metadata == NO_METADATA && p.workspace == ROOT_PATH
      && p.operation == "example" && p.id != NoPlanID && DistinctKeys(p.changes)
  {
    assert Ascending(STEPS);
    AscendingPlan("example", ROOT_PATH, STEPS, [], NO_METADATA);
    TwoStepsReadsNothing();
    hide NewPlan, Canonical, DistinctKeys;
  }

  lemma TwoStepsReadsNothing()
    ensures TwoSteps().inputs == []
  {
    hide Canonically, HashedAll;
  }

  lemma TwoStepsFacts()
    ensures WellFormed(TwoSteps()) && AllRestorable(STEPS) && DistinctPaths(STEPS) && EncodablePlan(TwoSteps())
  {
    hide Canonical, EncodablePlan, DistinctKeys, AllRestorable, TwoSteps;
    TwoStepsPlan();
    StepsAreRestorable();
    CanonicalIsEncodable(TwoSteps());
    StepPaths();
  }

  lemma StepPaths()
    ensures forall c :: c in STEPS ==> c.path != "" && c.kind != CreateFile
    ensures DistinctPaths(STEPS)
  {
    assert |MADE| == 10 && |KEPT| == 10;
    assert MADE[6] == 'm' && KEPT[6] == 'k';
  }

  lemma StepsAreRestorable()
    ensures AllRestorable(STEPS) && forall c :: c in STEPS ==> |c.content| <= MAX_RECORD_BYTES
  {
    assert |MADE| == 10 && |KEPT| == 10;
  }

  /** An initialised workspace whose file has this mode. */
  function FilesWith(mode: nat): Files {
    map[NAMESPACE := Directory(PRIVATE_DIRECTORY_MODE), RECOVERY_ROOT := Directory(PRIVATE_DIRECTORY_MODE), KEPT := File("old", mode)]
  }

  function CutTxn(mode: nat): Txn {
    TxnOf(AnyRoot(), FilesWith(mode), TwoSteps(), 0)
  }

  function Evidence(mode: nat): BundleDirectory {
    BundleDirectory(Some(Persisted(TwoSteps())), Some(CutTxn(mode).journal), map[1 := File("old", PRIVATE_FILE_MODE)], None)
  }

  /** The journal once the first change has begun. */
  function BegunJournal(mode: nat): Journal {
    var j := CutTxn(mode).journal;
    if j.actions == [] then j else SetLabel(j, 0, InProgress)
  }

  function FreshDisk(mode: nat): Disk {
    Disk(FilesWith(mode), false, None, map[])
  }

  /** The disk after staging. */
  function StagedTwoSteps(mode: nat): Disk {
    Disk(FilesWith(mode), false, Some(PointerOf(CutTxn(mode).journal)), map[CutTxn(mode).journal.transactionID := Evidence(mode)])
  }

  /** The disk Apply leaves when it is cut off right after the first publication. */
  function CutDisk(mode: nat): Disk {
    Disk(FilesWith(mode)[MADE := Directory(PRIVATE_DIRECTORY_MODE)], false, Some(PointerOf(CutTxn(mode).journal)),
         map[CutTxn(mode).journal.transactionID := Evidence(mode).(journal := Some(BegunJournal(mode)))])
  }

  lemma FilesFacts(mode: nat)
    ensures var files := FilesWith(mode);
      && NAMESPACE in files && RECOVERY_ROOT in files && KEPT in files && files[KEPT] == File("old", mode) && MADE !in files
      && StagedFiles(files) == files && ProperTree(files)
      && files[NAMESPACE].Directory? && files[RECOVERY_ROOT].Directory? && PURGE_MARKER !in files
  {
    assert |MADE| == 10 && |KEPT| == 10 && |NAMESPACE| == 5 && |RECOVERY_ROOT| == 14;
    assert MADE[6] == 'm' && KEPT[6] == 'k' && PURGE_MARKER[6] == 'P' && RECOVERY_ROOT[6] == 'r';
  }

  lemma StepsBeforeHold(mode: nat)
    ensures AllBeforeHold(AnyRoot(), FilesWith(mode), STEPS) && InputsHold(FilesWith(mode), [], {})
  {
    FilesFacts(mode);
  }

  lemma EvidenceIsFresh(mode: nat)
    ensures FreshBundle(AnyRoot(), FilesWith(mode), TwoSteps(), CutTxn(mode).journal, Evidence(mode))
  {
    FilesFacts(mode);
    TwoStepsPlan();
    hide DistinctKeys, TwoSteps, FilesWith, EncodablePlan, WellFormed, Canonical, StagedJournal;
  }

  lemma JournalFacts(mode: nat)
    ensures var j := CutTxn(mode).journal;
      && |j.actions| == 2 && j.actions[0].state == Pending && j.transactionID == CutTxn(mode).ID() && CutTxn(mode).Size() == 2
      && BegunJournal(mode) == SetLabel(j, 0, InProgress)
  {
    hide NewPlan, FilesWith, Canonical, DistinctKeys;
    TwoStepsPlan();
    FilesFacts(mode);
  }

  lemma StagedTransaction(mode: nat)
    requires mode != 0
    ensures var t, d := CutTxn(mode), StagedTwoSteps(mode);
      Sound(t) && Journaled(t, d, t.journal) && PublishedTo(t, d.files, 0)
  {
    hide FilesWith, TwoSteps, EncodablePlan, ValidJournal, WellFormed, InputsHold, AllBeforeHold, StagedFiles, StagedJournal, FreshBundle,
      Sound, Live, PublishedTo, LabelsTrue, LabelledTo, EitherWay, Framed, AtPrefix, ProperTree, Evidence;
    TwoStepsPlan();
    TwoStepsFacts();
    FilesFacts(mode);
    StepsBeforeHold(mode);
    EvidenceIsFresh(mode);
    JournalIsInOrder(mode);
    StagedIsSound(CutTxn(mode), 0, StagedTwoSteps(mode));
  }

  /** The transaction is sound and live, its first change published and its second not. */
  lemma CutIsUnfinished(mode: nat)
    requires mode != 0
    ensures var t, d := CutTxn(mode), CutDisk(mode);
      Sound(t) && Holds(t, d) && AtPrefix(t, d.files, 1) && !d.locked && t.Size() == 2
  {
    hide FilesWith, TwoSteps, Sound, PublishedTo, EitherWay, Framed, AtPrefix, Evidence, Live, StagedJournal, BegunJournal, StagedFiles;
    var t, d := CutTxn(mode), CutDisk(mode);
    StagedTransaction(mode);
    JournalFacts(mode);
    var begun := Transition(Machine(StagedTwoSteps(mode), 1), t.journal, 0, InProgress);
    TransitionRewritesLabel(t, Machine(StagedTwoSteps(mode), 1), t.journal, 0, InProgress);
    assert begun.m.disk.bundles == d.bundles && begun.m.disk.pointer == d.pointer;
    FirstIsPublished(t, FilesWith(mode), d.files) by {
      TwoStepsPlan();
      TwoStepsFacts();
      FilesFacts(mode);
    }
    PublishedIsFramed(t, d.files, 1);
    assert Foreseen(t.origin, t.plan) by {
      FilesFacts(mode);
    }
    LiveReadsRecords(t, begun.m.disk, d);
  }

  lemma JournalIsInOrder(mode: nat)
    requires mode != 0
    ensures ValidJournal(CutTxn(mode).journal)
  {
    hide NewPlan, FilesWith, EncodablePlan, ValidJournal, StagedJournal, WellFormed;
    TwoStepsPlan();
    TwoStepsFacts();
    FilesFacts(mode);
    StagedJournalIsValid(AnyRoot(), FilesWith(mode), TwoSteps(), 0, false);
  }

  // ----- The run that leaves it -----

  function Held(d: Disk): Disk {
    d.(locked := true)
  }

  lemma RecordsStaged(mode: nat, left: nat)
    requires mode != 0
    ensures var t := CutTxn(mode);
      StageRecords(AnyRoot(), Machine(Held(FreshDisk(mode)), left + 5), TwoSteps(), t.journal, false)
        == Go(Machine(Held(StagedTwoSteps(mode)), left))
  {
    hide FilesWith, TwoSteps, EncodablePlan, ValidJournal, StagedJournal, WellFormed, DistinctKeys, Canonical;
    TwoStepsPlan();
    TwoStepsFacts();
    FilesFacts(mode);
    JournalIsInOrder(mode);
    var id, d := CutTxn(mode).journal.transactionID, Held(FreshDisk(mode));
    BackupStaged(Machine(Store(d, id, EMPTY_BUNDLE.(plan := Some(Persisted(TwoSteps())))), left + 3), id, mode);
  }

  lemma BackupStaged(m: Machine, id: TransactionID, mode: nat)
    requires m.left > 0 && KEPT in m.disk.files && m.disk.files[KEPT] == File("old", mode)
    requires id in m.disk.bundles && m.disk.bundles[id].backups == map[]
    ensures StageBackups(AnyRoot(), m, id, STEPS, 0)
         == Go(Machine(Store(m.disk, id, m.disk.bundles[id].(backups := map[1 := File("old", PRIVATE_FILE_MODE)])), m.left - 1))
  {
    var backed := File("old", PRIVATE_FILE_MODE);
    var m' := Machine(Store(m.disk, id, m.disk.bundles[id].(backups := map[1 := backed])), m.left - 1);
    assert m.disk.bundles[id].backups[1 := backed] == map[1 := backed];
    assert StageBackups(AnyRoot(), m', id, STEPS, 2) == Go(m');
    assert NeedsBackup(STEPS[1]) && !NeedsBackup(STEPS[0]);
    assert StageBackups(AnyRoot(), m, id, STEPS, 1) == Go(m');
  }

  lemma FirstIsBegun(mode: nat)
    ensures |CutTxn(mode).journal.actions| == 2
    ensures Transition(Machine(Held(StagedTwoSteps(mode)), 2), CutTxn(mode).journal, 0, InProgress)
         == Go(Machine(Held(CutDisk(mode).(files := FilesWith(mode))), 1))
  {
    hide FilesWith, TwoSteps, StagedJournal, CutTxn, Evidence;
    JournalFacts(mode);
  }

  lemma FirstIsMade(mode: nat)
    ensures Publish(Machine(Held(CutDisk(mode).(files := FilesWith(mode))), 1), STEPS[0]) == Go(Machine(Held(CutDisk(mode)), 0))
  {
    hide FilesWith, TwoSteps, StagedJournal, CutTxn, Evidence, BegunJournal;
    FilesFacts(mode);
  }

  lemma FirstPublication(mode: nat)
    ensures |CutTxn(mode).journal.actions| == |TwoSteps().changes|
    ensures PublishFrom(AnyRoot(), Machine(Held(StagedTwoSteps(mode)), 2), TwoSteps(), CutTxn(mode).journal, false, 0)
         == Halt(Machine(Held(CutDisk(mode)), 0), WriteRefused)
  {
    hide FilesWith, TwoSteps, StagedJournal, CutTxn, Evidence, Transition, Publish, CutDisk, BegunJournal;
    TwoStepsPlan();
    FirstIsBegun(mode);
    FirstIsMade(mode);
    var j, m := CutTxn(mode).journal, Machine(Held(CutDisk(mode)), 0);
    JournalFacts(mode);
    assert Transition(m, SetLabel(j, 0, InProgress), 0, Applied) == Halt(m, WriteRefused) by {
      SpentTransition(m, SetLabel(j, 0, InProgress));
    }
    assert PublishAction(AnyRoot(), Machine(Held(StagedTwoSteps(mode)), 2), TwoSteps(), j, 0) == Halt(m, WriteRefused);
  }

  lemma SpentTransition(m: Machine, j: Journal)
    requires m.left == 0 && j.actions != [] && j.actions[0].state == InProgress
    ensures Transition(m, j, 0, Applied) == Halt(m, WriteRefused)
  {
  }

  lemma JournalIsStaged(mode: nat)
    ensures CutTxn(mode).journal == StagedJournal(AnyRoot(), FilesWith(mode), TwoSteps(), 0, false)
  {
    hide FilesWith, TwoSteps, StagedJournal;
    FilesFacts(mode);
  }

  lemma EvidenceIsStaged(mode: nat, m: Machine)
    requires m == Machine(Held(FreshDisk(mode)), 7) && mode != 0
    ensures Stage(AnyRoot(), m, TwoSteps(), CutTxn(mode).journal, false) == Go(Machine(Held(StagedTwoSteps(mode)), 2))
  {
    hide FilesWith, TwoSteps, StageRecords, StagedTwoSteps, CutTxn;
    FilesFacts(mode);
    RecordsStaged(mode, 2);
  }

  lemma BodyLeavesCutDisk(mode: nat, m: Machine)
    requires m == Machine(Held(FreshDisk(mode)), 7) && mode != 0
    ensures ApplyBody(AnyRoot(), m, TwoSteps(), 0, 0) == Halt(Machine(Held(CutDisk(mode)), 0), WriteRefused)
  {
    hide FilesWith, TwoSteps, StagedJournal, Stage, PublishFrom, StagedTwoSteps, InputsHold, AllBeforeHold, CutTxn, CutDisk, AllAfterHold;
    TwoStepsPlan();
    FilesFacts(mode);
    StepsBeforeHold(mode);
    JournalIsStaged(mode);
    EvidenceIsStaged(mode, m);
    FirstPublication(mode);
  }

  /** Apply with eight writes is cut off right there. */
  lemma ApplyLeavesCutDisk(mode: nat)
    requires mode != 0
    ensures ApplyRun(AnyRoot(), Machine(FreshDisk(mode), 8), TwoSteps(), TwoSteps().id, 0, 0)
         == Halt(Machine(CutDisk(mode), 0), WriteRefused)
  {
    hide FilesWith, TwoSteps, ApplyBody;
    TwoStepsPlan();
    FilesFacts(mode);
    BodyLeavesCutDisk(mode, Machine(Held(FreshDisk(mode)), 7));
  }

  lemma FirstIsPublished(t: Txn, files: Files, files': Files)
    requires t.plan.changes == STEPS && DistinctPaths(t.plan.changes) && PublishedTo(t, files, 0)
    requires files' == files[MADE := Directory(PRIVATE_DIRECTORY_MODE)]
    requires MADE !in files
    ensures PublishedTo(t, files', 1)
  {
    NextPublished(t, files, files', 0);
  }

  lemma CutEntries(mode: nat)
    ensures var files := CutDisk(mode).files;
      Get(files, MADE) == Some(Directory(PRIVATE_DIRECTORY_MODE)) && Get(files, KEPT) == Some(File("old", mode))
  {
    hide TwoSteps, FilesWith;
    FilesFacts(mode);
    assert MADE[6] == 'm' && KEPT[6] == 'k';
  }

  lemma CutSides(mode: nat)
    ensures var t, d := CutTxn(mode), CutDisk(mode); !AllAfterState(t, d.files) && !NoDirectoryMade(t, d.files)
  {
    hide TwoSteps, FilesWith, CutDisk, Canonical, DistinctKeys, StagedJournal;
    TwoStepsPlan();
    CutEntries(mode);
    var t, d := CutTxn(mode), CutDisk(mode);
    assert t.plan.changes[1].path == KEPT && Look(d.files, KEPT) != AfterState(STEPS[1]);
    assert t.plan.changes[0].path == MADE && Look(d.files, MADE) != BeforeState(STEPS[0]);
  }

  lemma CutIsSafe(mode: nat)
    ensures var t := CutTxn(mode); RecoverySafe(t.origin, t.plan) <==> mode == PRIVATE_FILE_MODE
  {
    hide TwoSteps, FilesWith, Canonical, DistinctKeys, StagedJournal, StagedFiles, ProperTree;
    TwoStepsPlan();
    FilesFacts(mode);
    var t := CutTxn(mode);
    assert ModePrivate(t.origin, t.plan.changes[0]);
    assert ModePrivate(t.origin, t.plan.changes[1]) <==> mode == PRIVATE_FILE_MODE;
  }

  /** Apply cut off behind its first publication: with any mode but 0600 on the file, a human is needed, although each
      path is on one side, and no attempt changes anything. */
  lemma ManualTransactionExists(mode: nat)
    requires mode !in {0, PRIVATE_FILE_MODE}
    ensures var t, d := CutTxn(mode), CutDisk(mode);
      && d == ApplyRun(AnyRoot(), Machine(FreshDisk(mode), 8), TwoSteps(), TwoSteps().id, 0, 0).m.disk
      && Sound(t) && Holds(t, d) && AtPrefix(t, d.files, 1) && ClassificationAt(t, d) == ManualRequired
      && forall a: Attempt :: a.action in {Rollback, Continue} ==>
           Attempted(t.root, d, a).Halt? && Attempted(t.root, d, a).m.disk == d
  {
    hide Sound, Holds, AtPrefix, AllAfterState, NoDirectoryMade, RecoverySafe, CutTxn, CutDisk, Attempted, InputsResolve,
      ClassificationAt, ApplyRun, FreshDisk, TwoSteps;
    ApplyLeavesCutDisk(mode);
    var t, d := CutTxn(mode), CutDisk(mode);
    CutIsUnfinished(mode);
    CutSides(mode);
    CutIsSafe(mode);
    HoldsIsLive(t, d);
    ClassifiedByPlan(t, d);
    forall a: Attempt | a.action in {Rollback, Continue}
      ensures Attempted(t.root, d, a).Halt? && Attempted(t.root, d, a).m.disk == d
    {
      UnofferedChangesNothing(t, d, a);
    }
  }

  lemma HoldsIsLive(t: Txn, d: Disk)
    requires Holds(t, d)
    ensures Live(t, d)
  {
  }

  lemma UnofferedChangesNothing(t: Txn, d: Disk, a: Attempt)
    requires Sound(t) && Holds(t, d) && !d.locked && a.action in {Rollback, Continue}
    requires !Offers(t, d, a) || (a.action == Rollback && !NoDirectoryMade(t, d.files))
    ensures Attempted(t.root, d, a).Halt? && Attempted(t.root, d, a).m.disk == d
  {
    hide Sound, Holds, Offers, NoDirectoryMade, Attempted;
    var k := RecoveryKeeps(t, d, a, 0, false);
  }

  /** The same run: with mode 0600 both ways are offered, and still every rollback is refused with nothing changed, for it
      would have to take the directory back. */
  lemma RefusedRollbackExists()
    ensures var t, d := CutTxn(PRIVATE_FILE_MODE), CutDisk(PRIVATE_FILE_MODE);
      && d == ApplyRun(AnyRoot(), Machine(FreshDisk(PRIVATE_FILE_MODE), 8), TwoSteps(), TwoSteps().id, 0, 0).m.disk
      && Sound(t) && Holds(t, d) && AtPrefix(t, d.files, 1) && ClassificationAt(t, d) == BothAvailable
      && forall a: Attempt :: a.action == Rollback ==>
           Attempted(t.root, d, a).Halt? && Attempted(t.root, d, a).m.disk == d
  {
    hide Sound, Holds, AtPrefix, AllAfterState, NoDirectoryMade, RecoverySafe, CutTxn, CutDisk, Attempted, Offers,
      ClassificationAt, ApplyRun, FreshDisk, TwoSteps;
    ApplyLeavesCutDisk(PRIVATE_FILE_MODE);
    var t, d := CutTxn(PRIVATE_FILE_MODE), CutDisk(PRIVATE_FILE_MODE);
    CutIsUnfinished(PRIVATE_FILE_MODE);
    CutSides(PRIVATE_FILE_MODE);
    CutIsSafe(PRIVATE_FILE_MODE);
    HoldsIsLive(t, d);
    ClassifiedByPlan(t, d);
    forall a: Attempt | a.action == Rollback
      ensures Attempted(t.root, d, a).Halt? && Attempted(t.root, d, a).m.disk == d
    {
      UnofferedChangesNothing(t, d, a);
    }
  }
}
