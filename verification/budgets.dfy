/** The write budget. What a call costs depends on the disk alone: a call that goes through does the same with any budget
    that covers its cost. And one that is cut off gets at least as far with one more write. */
module Budgets {
  import opened Wrappers
  import opened Records
  import opened Planning
  import opened Transactions
  import opened Engine
  import opened Invariants
  import opened StagingProofs
  import opened ApplyProofs

  // ----- The cost of going through -----

  function WithBudget(m: Machine, left: nat): Machine {
    m.(left := left)
  }

  /** r is a call made on m; r' is the same call with another budget: the same again, if that covers the cost of r. */
  predicate Repeats(m: Machine, r: Run, left: nat, r': Run) {
    r.Go? ==>
      && r.m.left <= m.left
      && (left >= m.left - r.m.left ==> r' == Go(WithBudget(r.m, left - (m.left - r.m.left))))
  }

  /** The other budget once a part of the call has been paid for. */
  function Rest(m: Machine, m1: Machine, left: nat): nat
    requires m1.left <= m.left
  {
    if left >= m.left - m1.left then left - (m.left - m1.left) else 0
  }

  lemma {:induction false} BackupsRepeat(root: Root, m: Machine, id: TransactionID, changes: seq<Change>, i: nat, left: nat)
    requires i <= |changes|
    ensures Repeats(m, StageBackups(root, m, id, changes, i), left, StageBackups(root, WithBudget(m, left), id, changes, i))
    decreases |changes| - i
  {
    hide NeedsBackup;
    if i < |changes| {
      var c, files := changes[i], m.disk.files;
      if !NeedsBackup(c) {
        BackupsRepeat(root, m, id, changes, i + 1, left);
      } else if root.resolves(c.path) && FitsRecord(files, c.path) && HashBytes(files[c.path].content) == c.before && m.left > 0 {
        var b := Stored(m.disk, id);
        var m1 := Machine(Store(m.disk, id, b.(backups := b.backups[i := File(files[c.path].content, PRIVATE_FILE_MODE)])), m.left - 1);
        BackupsRepeat(root, m1, id, changes, i + 1, Rest(m, m1, left));
      }
    }
  }

  lemma RecoveryRootRepeats(m: Machine, bootstrap: bool, left: nat)
    ensures Repeats(m, StageRecoveryRoot(m, bootstrap), left, StageRecoveryRoot(WithBudget(m, left), bootstrap))
  {
    hide StagedFiles;
  }

  lemma JournalRepeats(m: Machine, journal: Journal, bootstrap: bool, left: nat)
    ensures Repeats(m, StageJournal(m, journal, bootstrap), left, StageJournal(WithBudget(m, left), journal, bootstrap))
  {
    hide StagedFiles, ValidJournal;
  }

  lemma RecordsRepeat(root: Root, m: Machine, plan: Plan, journal: Journal, bootstrap: bool, left: nat)
    ensures Repeats(m, StageRecords(root, m, plan, journal, bootstrap), left,
                    StageRecords(root, WithBudget(m, left), plan, journal, bootstrap))
  {
    hide EncodablePlan, StageJournal, StageBackups, Persisted;
    var id := journal.transactionID;
    if id !in m.disk.bundles && m.left > 1 && EncodablePlan(plan) {
      var d := Store(Store(m.disk, id, EMPTY_BUNDLE), id, EMPTY_BUNDLE.(plan := Some(Persisted(plan))));
      var m2 := Machine(d, m.left - 2);
      BackupsRepeat(root, m2, id, plan.changes, 0, Rest(m, m2, left));
      var r3 := StageBackups(root, m2, id, plan.changes, 0);
      if r3.Go? {
        JournalRepeats(r3.m, journal, bootstrap, Rest(m, r3.m, left));
      }
    }
  }

  lemma StagingRepeats(root: Root, m: Machine, plan: Plan, journal: Journal, bootstrap: bool, left: nat)
    ensures Repeats(m, Stage(root, m, plan, journal, bootstrap), left,
                    Stage(root, WithBudget(m, left), plan, journal, bootstrap))
  {
    hide StageRecords, StageRecoveryRoot;
    if !bootstrap || m.left > 0 {
      var m1 := if bootstrap then m.(left := m.left - 1) else m;
      RecoveryRootRepeats(m1, bootstrap, Rest(m, m1, left));
      var r2 := StageRecoveryRoot(m1, bootstrap);
      if r2.Go? {
        RecordsRepeat(root, r2.m, plan, journal, bootstrap, Rest(m, r2.m, left));
      }
    }
  }

  lemma ActionRepeats(root: Root, m: Machine, plan: Plan, j: Journal, i: nat, left: nat)
    requires i < |plan.changes| == |j.actions|
    ensures Repeats(m, PublishAction(root, m, plan, j, i), left, PublishAction(root, WithBudget(m, left), plan, j, i))
  {
    hide InputsHold, AfterHolds, Published, ChangePaths, CanTransition;
  }

  lemma {:induction false} LoopRepeats(root: Root, m: Machine, plan: Plan, j: Journal, bootstrap: bool, i: nat, left: nat)
    requires i <= |plan.changes| == |j.actions|
    ensures Repeats(m, PublishFrom(root, m, plan, j, bootstrap, i), left,
                    PublishFrom(root, WithBudget(m, left), plan, j, bootstrap, i))
    decreases |plan.changes| - i
  {
    hide PublishAction;
    if i < |plan.changes| {
      if Skipped(j, i, bootstrap) {
        LoopRepeats(root, m, plan, j, bootstrap, i + 1, left);
      } else {
        ActionRepeats(root, m, plan, j, i, left);
        var r := PublishAction(root, m, plan, j, i);
        if r.Go? {
          LoopRepeats(root, r.m, plan, SetLabel(j, i, Verified), bootstrap, i + 1, Rest(m, r.m, left));
        }
      }
    }
  }

  // ----- One more write -----

  function More(m: Machine): Machine {
    WithBudget(m, m.left + 1)
  }

  /** r' is r with a write more: it does the same, or r was cut off and r' does not take back what r had changed. */
  predicate Grows(m: Machine, r: Run, r': Run) {
    && (r.Go? ==> r' == Go(More(r.m)))
    && (r.m.disk.files != m.disk.files ==> r'.m.disk.files == r.m.disk.files)
  }

  lemma LabelGrows(m: Machine, j: Journal, i: nat, state: ActionState)
    requires i < |j.actions|
    ensures Grows(m, Transition(m, j, i, state), Transition(More(m), j, i, state))
    ensures Transition(m, j, i, state).m.disk.files == m.disk.files
  {
    hide CanTransition;
  }

  lemma PublishGrows(m: Machine, c: Change)
    ensures Grows(m, Publish(m, c), Publish(More(m), c))
  {
    hide Published;
  }

  /** The labels after a publication change no file. */
  lemma RecordFiles(root: Root, m: Machine, c: Change, j: Journal, i: nat)
    requires i < |j.actions|
    ensures PublishAndRecord(root, m, c, j, i).m.disk.files == Publish(m, c).m.disk.files
  {
    hide AfterHolds, Publish, CanTransition;
  }

  lemma RecordGrows(root: Root, m: Machine, c: Change, j: Journal, i: nat)
    requires i < |j.actions|
    ensures Grows(m, PublishAndRecord(root, m, c, j, i), PublishAndRecord(root, More(m), c, j, i))
  {
    hide AfterHolds, Publish, Transition;
    PublishGrows(m, c);
    RecordFiles(root, m, c, j, i);
    RecordFiles(root, More(m), c, j, i);
    var r1 := Publish(m, c);
    if r1.Go? {
      LabelGrows(r1.m, SetLabel(j, i, InProgress), i, Applied);
      var r2 := Transition(r1.m, SetLabel(j, i, InProgress), i, Applied);
      if r2.Go? {
        LabelGrows(r2.m, SetLabel(j, i, Applied), i, Verified);
      }
    }
  }

  lemma ActionGrows(root: Root, m: Machine, plan: Plan, j: Journal, i: nat)
    requires i < |plan.changes| == |j.actions|
    ensures Grows(m, PublishAction(root, m, plan, j, i), PublishAction(root, More(m), plan, j, i))
  {
    hide InputsHold, ChangePaths, Transition, PublishAndRecord;
    LabelGrows(m, j, i, InProgress);
    var r1 := Transition(m, j, i, InProgress);
    if r1.Go? {
      RecordGrows(root, r1.m, plan.changes[i], j, i);
    }
  }

  /** The loop with a write more publishes at least as many changes. */
  lemma {:induction false} LoopGrows(t: Txn, m: Machine, j: Journal, i: nat) returns (k: nat, k': nat)
    requires i <= t.Size() == |j.actions| && Sound(t) && LabelledTo(t, j, i)
    requires PublishedTo(t, m.disk.files, i) && Journaled(t, m.disk, j) && LabelsTrue(t, m.disk)
    ensures k <= k'
    ensures PublishedTo(t, PublishFrom(t.root, m, t.plan, j, t.bootstrap, i).m.disk.files, k)
    ensures PublishedTo(t, PublishFrom(t.root, More(m), t.plan, j, t.bootstrap, i).m.disk.files, k')
    decreases t.Size() - i
  {
    hide Sound, LabelledTo, PublishedTo, LabelsTrue, Live, StagedFiles, PublishAction, AfterState, PublishFrom;
    if i < t.Size() {
      LoopTurns(t.root, m, t.plan, j, t.bootstrap, i);
      LoopTurns(t.root, More(m), t.plan, j, t.bootstrap, i);
    }
    if i == t.Size() {
      k, k' := i, i;
      LoopIsOver(t.root, m, t.plan, j, t.bootstrap);
      LoopIsOver(t.root, More(m), t.plan, j, t.bootstrap);
    } else if Skipped(j, i, t.bootstrap) {
      SkippedIsAfter(t, m.disk.files, j, i);
      SkipKeeps(t, m.disk.files, j, i);
      k, k' := LoopGrows(t, m, j, i + 1);
    } else {
      ActionKeeps(t, m, j, i);
      ActionKeeps(t, More(m), j, i);
      ActionGrows(t.root, m, t.plan, j, i);
      var r, r' := PublishAction(t.root, m, t.plan, j, i), PublishAction(t.root, More(m), t.plan, j, i);
      NextLabelled(t, j, i);
      if r.Go? {
        k, k' := LoopGrows(t, r.m, SetLabel(j, i, Verified), i + 1);
      } else {
        k := if PublishedTo(t, r.m.disk.files, i) then i else i + 1;
        if r'.Go? {
          k' := LoopKeeps(t, r'.m, SetLabel(j, i, Verified), i + 1);
        } else {
          k' := if k == i + 1 || !PublishedTo(t, r'.m.disk.files, i) then i + 1 else i;
        }
      }
    }
  }

  // ----- Whole calls -----

  /** What Apply does once its transaction is staged. */
  function AfterStaging(root: Root, m: Machine, plan: Plan, j: Journal, bootstrap: bool, finished: int): Run
    requires |plan.changes| == |j.actions|
  {
    var m1 :- PublishFrom(root, m, plan, j, bootstrap, 0);
    if !AllAfterHold(root, m1.disk.files, plan.changes) then Halt(m1, AfterMismatch)
    else Complete(root, m1, plan, j, finished)
  }

  lemma StagingEndsAt(t: Txn, m: Machine, finished: int, k: nat)
    requires Sound(t) && |t.journal.actions| == t.Size() && LabelledTo(t, t.journal, 0) && PublishedTo(t, m.disk.files, 0)
    requires Journaled(t, m.disk, t.journal) && LabelsTrue(t, m.disk) && Foreseen(t.origin, t.plan)
    requires PublishedTo(t, PublishFrom(t.root, m, t.plan, t.journal, t.bootstrap, 0).m.disk.files, k)
    ensures var n := if PublishFrom(t.root, m, t.plan, t.journal, t.bootstrap, 0).Go? then t.Size() else k;
      AtPrefix(t, AfterStaging(t.root, m, t.plan, t.journal, t.bootstrap, finished).m.disk.files, n)
  {
    hide Sound, LabelledTo, PublishedTo, LabelsTrue, Live, StagedFiles, PublishFrom, AfterState, Foreseen, AtPrefix, Complete,
      AllAfterHold, AllAfterState, EitherWay, Framed;
    var r := PublishFrom(t.root, m, t.plan, t.journal, t.bootstrap, 0);
    if r.Go? {
      var n := LoopKeeps(t, m, t.journal, 0);
      PublishedIsFramed(t, r.m.disk.files, n);
      CompletionKeeps(t, r.m, finished);
      AllAfterIsPrefix(t, r.m.disk.files);
      AllAfterIsPrefix(t, Complete(t.root, r.m, t.plan, t.journal, finished).m.disk.files);
    } else {
      PublishedIsFramed(t, r.m.disk.files, k);
    }
  }

  lemma StagedGrows(t: Txn, m: Machine, finished: int) returns (k: nat, k': nat)
    requires Sound(t) && |t.journal.actions| == t.Size() && LabelledTo(t, t.journal, 0) && PublishedTo(t, m.disk.files, 0)
    requires Journaled(t, m.disk, t.journal) && LabelsTrue(t, m.disk) && Foreseen(t.origin, t.plan)
    ensures k <= k'
    ensures AtPrefix(t, AfterStaging(t.root, m, t.plan, t.journal, t.bootstrap, finished).m.disk.files, k)
    ensures AtPrefix(t, AfterStaging(t.root, More(m), t.plan, t.journal, t.bootstrap, finished).m.disk.files, k')
  {
    hide Sound, LabelledTo, LabelsTrue, Live, StagedFiles, PublishFrom, Foreseen, AtPrefix, AfterStaging;
    k, k' := LoopGrows(t, m, t.journal, 0);
    StagingEndsAt(t, m, finished, k);
    StagingEndsAt(t, More(m), finished, k');
    LoopRepeats(t.root, m, t.plan, t.journal, t.bootstrap, 0, m.left + 1);
    k := if PublishFrom(t.root, m, t.plan, t.journal, t.bootstrap, 0).Go? then t.Size() else k;
    k' := if PublishFrom(t.root, More(m), t.plan, t.journal, t.bootstrap, 0).Go? then t.Size() else k';
  }

  /** Apply's work on a foreseen plan, cut off here and one write later: nothing was published here, or the later one has
      published at least as many of the first changes. */
  lemma BodyGrows(t: Txn, m: Machine, started: int, finished: int) returns (k: nat, k': nat)
    requires t == TxnOf(t.root, m.disk.files, t.plan, started)
    requires ProperTree(t.origin) && WellFormed(t.plan) && t.plan.workspace == t.root.path && m.disk.pointer.None?
    requires Foreseen(t.origin, t.plan)
    ensures var files := ApplyBody(t.root, m, t.plan, started, finished).m.disk.files;
      || files in {t.origin, StagedFiles(t.origin)}
      || (Sound(t) && k <= k' && AtPrefix(t, files, k)
          && AtPrefix(t, ApplyBody(t.root, More(m), t.plan, started, finished).m.disk.files, k'))
  {
    hide InputsHold, AllBeforeHold, EncodablePlan, ValidJournal, WellFormed, ProperTree, StagedFiles, FreshBundle,
      Sound, Complete, PublishFrom, Stage, Foreseen, LabelsTrue, Journaled, LabelledTo, PublishedTo, StagedJournal,
      AllAfterHold, AtPrefix;
    k, k' := 0, 0;
    if InputsHold(m.disk.files, t.plan.inputs, {}) && AllBeforeHold(t.root, m.disk.files, t.plan.changes) && t.plan.changes != [] {
      StagingIsAllOrNothing(t.root, m, t.plan, t.journal, t.bootstrap);
      StagingRepeats(t.root, m, t.plan, t.journal, t.bootstrap, m.left + 1);
      var r1 := Stage(t.root, m, t.plan, t.journal, t.bootstrap);
      if r1.Go? {
        StagedIsSound(t, started, r1.m.disk);
        LabelledFacts(t, t.journal, 0);
        k, k' := StagedGrows(t, r1.m, finished);
      }
    }
  }
}
