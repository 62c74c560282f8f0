/** Apply on a workspace without .uawp: staging makes the namespace and the recovery directory and publishes both with the
    live pointer in one rename, and no lock is taken. */
module Bootstraps {
  import opened Wrappers
  import opened Records
  import opened Transactions
  import opened Engine
  import opened Invariants
  import opened StagingProofs
  import opened ApplyProofs
  import opened RecoveryOutcomes
  import opened Completion

  /** The two directories staging makes. */
  predicate MadeByStaging(path: string) {
    path == NAMESPACE || path == RECOVERY_ROOT
  }

  /** How many of the first changes are those directories. */
  function Leading(changes: seq<Change>): (n: nat)
    ensures n <= |changes|
    ensures forall i :: 0 <= i < n ==> changes[i].kind == CreateDir && MadeByStaging(changes[i].path)
    ensures n < |changes| ==> !(changes[n].kind == CreateDir && MadeByStaging(changes[n].path))
  {
    if changes == [] || !(changes[0].kind == CreateDir && MadeByStaging(changes[0].path)) then 0
    else 1 + Leading(changes[1..])
  }

  /** No input is one of the two directories, but for those the plan itself makes first. */
  predicate BootstrapForeseen(plan: Plan) {
    var n := Leading(plan.changes);
    n < |plan.changes| ==>
      forall k :: 0 <= k < |plan.inputs| && MadeByStaging(plan.inputs[k].path) ==> plan.inputs[k].path in ChangePaths(plan.changes[..n])
  }

  /** Every check a bootstrap makes before it publishes passes. */
  ghost predicate ReadyToBootstrap(t: Txn, d: Disk, finished: int) {
    && t.plan.id != NoPlanID && t.plan.workspace == t.root.path && t.plan.changes != []
    && NAMESPACE !in d.files && d.pointer.None?
    && InputsHold(d.files, t.plan.inputs, {}) && AllBeforeHold(t.root, d.files, t.plan.changes)
    && t.journal.transactionID !in d.bundles && EncodablePlan(t.plan) && ValidJournal(t.journal)
    && TargetsReadable(t.root, d.files, t.plan.changes)
    && ReceiptAccepted(t, StagedFiles(d.files), finished)
  }

  /** A bootstrap with nothing in the way but the write budget is staged. */
  lemma BootstrapIsStaged(root: Root, m: Machine, plan: Plan, journal: Journal)
    requires NAMESPACE !in m.disk.files && journal.transactionID !in m.disk.bundles
    requires EncodablePlan(plan) && ValidJournal(journal) && TargetsReadable(root, m.disk.files, plan.changes)
    requires m.left >= |plan.changes| + 7
    ensures Stage(root, m, plan, journal, true).Go?
  {
    hide EncodablePlan, ValidJournal, StageRecords, FreshBundle, TargetsReadable;
    RecordsAreStaged(root, m.(left := m.left - 2), plan, journal, true);
  }

  // ----- The loop -----

  /** At and behind the first change that is left to publish, the inputs that still count are as they were. */
  lemma BootstrapInputsHold(t: Txn, files: Files, i: nat)
    requires Sound(t) && t.bootstrap && BootstrapForeseen(t.plan) && Leading(t.plan.changes) <= i < t.Size() && PublishedTo(t, files, i)
    ensures InputsHold(files, t.plan.inputs, ChangePaths(t.plan.changes[..i]))
  {
    hide Sound, PublishedTo, InputHolds, ChangePaths;
    forall k | 0 <= k < |t.plan.inputs| && t.plan.inputs[k].path !in ChangePaths(t.plan.changes[..i])
      ensures InputHolds(files, t.plan.inputs[k])
    {
      BootstrapInputHolds(t, files, i, k);
    }
  }

  lemma BootstrapInputHolds(t: Txn, files: Files, i: nat, k: nat)
    requires Sound(t) && t.bootstrap && BootstrapForeseen(t.plan) && Leading(t.plan.changes) <= i < t.Size() && PublishedTo(t, files, i)
    requires k < |t.plan.inputs| && t.plan.inputs[k].path !in ChangePaths(t.plan.changes[..i])
    ensures InputHolds(files, t.plan.inputs[k])
  {
    var q := t.plan.inputs[k].path;
    assert InputHolds(t.origin, t.plan.inputs[k]);
    hide Sound;
    assert !MadeByStaging(q) by {
      EarlierPaths(t.plan.changes, Leading(t.plan.changes), i);
    }
    PathAsStaged(t, files, i, q);
    StagedElsewhere(t.origin, q);
    hide StagedFiles, PublishedTo, BootstrapForeseen;
    SameEntrySameLook(files, t.origin, q);
  }

  lemma EarlierPaths(changes: seq<Change>, n: nat, i: nat)
    requires n <= i <= |changes|
    ensures ChangePaths(changes[..n]) <= ChangePaths(changes[..i])
  {
    assert forall c :: c in changes[..n] ==> c in changes[..i];
  }

  lemma StagedElsewhere(files: Files, q: string)
    requires !MadeByStaging(q)
    ensures Get(StagedFiles(files), q) == Get(files, q)
  {
  }

  /** A path that is not among the published is as staging left it. */
  lemma PathAsStaged(t: Txn, files: Files, i: nat, q: string)
    requires PublishedTo(t, files, i) && q !in ChangePaths(t.plan.changes[..i])
    ensures Get(files, q) == Get(StagedFiles(t.origin), q)
  {
    hide StagedFiles, AfterState;
    if q in ChangePaths(t.plan.changes) {
      var x := ChangePathIndex(t.plan.changes, q);
      PathInPrefix(t.plan.changes, x, i);
    }
  }

  /** A change that is left to publish finds its before state. */
  lemma OpenIsBefore(t: Txn, j: Journal, files: Files, i: nat)
    requires Sound(t) && t.bootstrap && LabelledTo(t, j, i) && i < t.Size() && !Skipped(j, i, true) && PublishedTo(t, files, i)
    ensures Look(files, t.plan.changes[i].path) == BeforeState(t.plan.changes[i])
    ensures Publishable(t.plan.changes[i]) && DistinctPaths(t.plan.changes)
  {
    SoundFacts(t);
    StagedChange(t, i);
    assert SoundChange(t, t.plan.changes[i]);
    hide Sound, Look, BeforeState, AfterState, StagedFiles, Publishable, DistinctPaths;
    SameEntrySameLook(files, StagedFiles(t.origin), t.plan.changes[i].path);
  }

  lemma BootstrapActionGoes(t: Txn, m: Machine, j: Journal, i: nat)
    requires Sound(t) && t.bootstrap && LabelledTo(t, j, i) && i < t.Size() && !Skipped(j, i, true)
    requires PublishedTo(t, m.disk.files, i) && Journaled(t, m.disk, j) && LabelsTrue(t, m.disk)
    requires InputsHold(m.disk.files, t.plan.inputs, ChangePaths(t.plan.changes[..i])) && m.left >= 4
    ensures var r := PublishAction(t.root, m, t.plan, j, i);
      r.Go? && TurnEnds(t, m, i, r) && Journaled(t, r.m.disk, SetLabel(j, i, Verified))
  {
    hide Sound, Live, LabelledTo, PublishedTo, AfterState, BeforeState, LabelsTrue, InputsHold, TurnEnds, PublishAndRecord, SameButLabels,
      ChangePaths, Publish, Published, Publishable, StagedFiles, Transition, DistinctPaths;
    var c := t.plan.changes[i];
    NextIsPending(t, j, i);
    TransitionRewritesLabel(t, m, j, i, InProgress);
    OpenIsBefore(t, j, m.disk.files, i);
    var m1 := Transition(m, j, i, InProgress).m;
    PublishMovesOnePath(m1, c);
    var m2 := Publish(m1, c).m;
    NextPublished(t, m.disk.files, m2.disk.files, i);
    FilesOnlyStayJournaled(t, m1.disk, SetLabel(j, i, InProgress), m2.disk.files);
    FinishAction(t, m, j, i, m1, m2);
  }

  lemma {:induction false} BootstrapLoopGoes(t: Txn, m: Machine, j: Journal, i: nat)
    requires i <= t.Size() == |j.actions| && Sound(t) && t.bootstrap && LabelledTo(t, j, i)
    requires PublishedTo(t, m.disk.files, i) && Journaled(t, m.disk, j) && LabelsTrue(t, m.disk)
    requires BootstrapForeseen(t.plan) && Leading(t.plan.changes) <= i && m.left >= 4 * (t.Size() - i)
    ensures var r := PublishFrom(t.root, m, t.plan, j, true, i); r.Go? && r.m.left >= m.left - 4 * (t.Size() - i)
    decreases t.Size() - i
  {
    hide Sound, LabelledTo, PublishedTo, LabelsTrue, BundleKept, BootstrapForeseen, StagedFiles, PublishAction, PublishFrom, AfterState,
      InputsHold, ChangePaths;
    if i == t.Size() {
      LoopIsOver(t.root, m, t.plan, j, true);
    } else {
      LoopTurns(t.root, m, t.plan, j, true, i);
      if Skipped(j, i, true) {
        SkippedIsAfter(t, m.disk.files, j, i);
        SkipKeeps(t, m.disk.files, j, i);
        BootstrapLoopGoes(t, m, j, i + 1);
      } else {
        BootstrapInputsHold(t, m.disk.files, i);
        BootstrapActionGoes(t, m, j, i);
        NextLabelled(t, j, i);
        BootstrapLoopGoes(t, PublishAction(t.root, m, t.plan, j, i).m, SetLabel(j, i, Verified), i + 1);
      }
    }
  }

  /** The directories in front are skipped: they are there. */
  lemma {:induction false} LeadingIsSkipped(t: Txn, m: Machine, i: nat)
    requires Sound(t) && t.bootstrap && |t.journal.actions| == t.Size() && i <= Leading(t.plan.changes)
    requires LabelledTo(t, t.journal, 0) && PublishedTo(t, m.disk.files, 0)
    ensures PublishFrom(t.root, m, t.plan, t.journal, true, 0) == PublishFrom(t.root, m, t.plan, t.journal, true, i)
    ensures LabelledTo(t, t.journal, i) && PublishedTo(t, m.disk.files, i)
  {
    hide Sound, LabelledTo, PublishedTo, StagedFiles, PublishAction, PublishFrom, AfterState;
    if i > 0 {
      LeadingIsSkipped(t, m, i - 1);
      LeadingIsVerified(t, i - 1);
      LoopTurns(t.root, m, t.plan, t.journal, true, i - 1);
      SkippedIsAfter(t, m.disk.files, t.journal, i - 1);
      SkipKeeps(t, m.disk.files, t.journal, i - 1);
    }
  }

  lemma LeadingIsVerified(t: Txn, i: nat)
    requires Sound(t) && t.bootstrap && i <= Leading(t.plan.changes) && i < t.Size()
    ensures |t.journal.actions| == t.Size()
    ensures t.journal.actions[i].state == Verified <==> i < Leading(t.plan.changes)
  {
    SoundFacts(t);
    hide Sound, ValidJournal, ValidPointer, PlanAgrees, DistinctPaths;
  }

  /** An input on one of the two directories has drifted when the first change is to be published. */
  lemma UnforeseenBootstrapDrifts(t: Txn, m: Machine)
    requires Sound(t) && t.bootstrap && !BootstrapForeseen(t.plan) && |t.journal.actions| == t.Size()
    requires PublishedTo(t, m.disk.files, Leading(t.plan.changes))
    ensures PublishFrom(t.root, m, t.plan, t.journal, true, Leading(t.plan.changes)) == Halt(m, InputDrift)
  {
    var n := Leading(t.plan.changes);
    var k :| 0 <= k < |t.plan.inputs| && MadeByStaging(t.plan.inputs[k].path)
             && t.plan.inputs[k].path !in ChangePaths(t.plan.changes[..n]);
    LeadingIsVerified(t, n);
    MadeInputDrifts(t, m.disk.files, n, k);
    hide Sound, PublishedTo, ChangePaths, Transition, PublishAndRecord;
    assert !InputsHold(m.disk.files, t.plan.inputs, ChangePaths(t.plan.changes[..n]));
    LoopTurns(t.root, m, t.plan, t.journal, true, n);
  }

  lemma MadeInputDrifts(t: Txn, files: Files, n: nat, k: nat)
    requires Sound(t) && t.bootstrap && PublishedTo(t, files, n)
    requires k < |t.plan.inputs| && MadeByStaging(t.plan.inputs[k].path) && t.plan.inputs[k].path !in ChangePaths(t.plan.changes[..n])
    ensures !InputHolds(files, t.plan.inputs[k])
  {
    var q := t.plan.inputs[k].path;
    assert InputHolds(t.origin, t.plan.inputs[k]) && ProperTree(t.origin) && NAMESPACE !in t.origin;
    hide Sound;
    assert Get(StagedFiles(t.origin), q) == Some(Directory(PRIVATE_DIRECTORY_MODE)) && q !in t.origin;
    PathAsStaged(t, files, n, q);
    hide StagedFiles, PublishedTo;
    SameEntrySameLook(files, StagedFiles(t.origin), q);
  }

  // ----- The whole call -----

  lemma StagedBootstrap(t: Txn, m: Machine, started: int, finished: int)
    requires t == TxnOf(t.root, m.disk.files, t.plan, started) && WellFormed(t.plan) && ProperTree(m.disk.files)
    requires ReadyToBootstrap(t, m.disk, finished) && m.left >= 5 * t.Size() + 10
    ensures var r := Stage(t.root, m, t.plan, t.journal, true);
      && r.Go? && t.bootstrap && Sound(t) && Journaled(t, r.m.disk, t.journal) && LabelledTo(t, t.journal, 0)
      && PublishedTo(t, r.m.disk.files, 0) && LabelsTrue(t, r.m.disk) && r.m.left >= 4 * t.Size() + 3
  {
    hide InputsHold, AllBeforeHold, EncodablePlan, ValidJournal, WellFormed, ProperTree, StagedFiles, FreshBundle, TargetsReadable,
      Sound, Stage, LabelsTrue, Journaled, LabelledTo, PublishedTo, StagedJournal, ReceiptAccepted;
    BootstrapIsStaged(t.root, m, t.plan, t.journal);
    StagingIsAllOrNothing(t.root, m, t.plan, t.journal, true);
    StagedIsSound(t, started, Stage(t.root, m, t.plan, t.journal, true).m.disk);
  }

  /** From the staged namespace to the end. */
  lemma BootstrapFinishes(t: Txn, m: Machine, finished: int)
    requires Sound(t) && t.bootstrap && |t.journal.actions| == t.Size() && LabelledTo(t, t.journal, 0) && PublishedTo(t, m.disk.files, 0)
    requires Journaled(t, m.disk, t.journal) && LabelsTrue(t, m.disk) && BootstrapForeseen(t.plan)
    requires ReceiptAccepted(t, StagedFiles(t.origin), finished) && m.left >= 4 * t.Size() + 3
    ensures var r := PublishFrom(t.root, m, t.plan, t.journal, true, 0);
      r.Go? && AllAfterHold(t.root, r.m.disk.files, t.plan.changes) && Complete(t.root, r.m, t.plan, t.journal, finished).Go?
  {
    hide Sound, WellFormed, AllAfterState, AllAfterHold, PublishedTo, EitherWay, Framed, AtPrefix, LabelsTrue, BundleKept, LabelledTo,
      StagedFiles, Complete, PublishFrom, BootstrapForeseen, ReceiptAccepted;
    var n := Leading(t.plan.changes);
    LeadingIsSkipped(t, m, n);
    BootstrapLoopGoes(t, m, t.journal, n);
    var k := LoopKeeps(t, m, t.journal, 0);
    var r := PublishFrom(t.root, m, t.plan, t.journal, true, 0);
    PublishedIsFramed(t, r.m.disk.files, k);
    AllAfterPasses(t, r.m.disk.files);
    ReceiptStillAccepted(t, r.m.disk.files, finished);
    CompletionGoesThrough(t, r.m, finished);
  }

  /** A bootstrap with everything in order and enough writes goes through exactly when none of its inputs is a directory that
      staging makes, but for those its first changes make. */
  lemma BootstrapGoesThroughExactly(root: Root, m: Machine, plan: Plan, started: int, finished: int)
    requires WellFormed(plan) && ProperTree(m.disk.files)
    requires ReadyToBootstrap(TxnOf(root, m.disk.files, plan, started), m.disk, finished) && m.left >= 5 * |plan.changes| + 10
    ensures ApplyRun(root, m, plan, plan.id, started, finished).Go? <==> BootstrapForeseen(plan)
  {
    var t := TxnOf(root, m.disk.files, plan, started);
    StagedBootstrap(t, m, started, finished);
    var r1 := Stage(root, m, plan, t.journal, true);
    LabelledFacts(t, t.journal, 0);
    hide InputsHold, AllBeforeHold, EncodablePlan, ValidJournal, WellFormed, ProperTree, StagedFiles, FreshBundle, TargetsReadable,
      Sound, Stage, LabelsTrue, Journaled, LabelledTo, PublishedTo, StagedJournal, ReceiptAccepted, BootstrapForeseen, PublishFrom,
      Complete, AllAfterHold;
    if BootstrapForeseen(plan) {
      BootstrapFinishes(t, r1.m, finished);
    } else {
      LeadingIsSkipped(t, r1.m, Leading(plan.changes));
      UnforeseenBootstrapDrifts(t, r1.m);
    }
  }
}
