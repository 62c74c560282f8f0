/** Whole runs: an interrupted Apply and any number of interrupted recoveries after it. */
module Runs {
  import opened Wrappers
  import opened Records
  import opened Transactions
  import opened Engine
  import opened Invariants
  import opened StagingProofs
  import opened ApplyProofs
  import opened RecoveryProofs
  import opened RecoveryOutcomes

  /** The disk after the attempts, made one after the other. */
  function AfterAttempts(root: Root, d: Disk, attempts: seq<Attempt>): Disk
    decreases |attempts|
  {
    if attempts == [] then d else AfterAttempts(root, Attempted(root, d, attempts[0]).m.disk, attempts[1..])
  }

  ghost predicate Chosen(attempts: seq<Attempt>) {
    forall a :: a in attempts ==> a.action in {Rollback, Continue}
  }

  /** With no pointer there is nothing to recover. */
  lemma {:induction false} NothingToRecover(root: Root, d: Disk, attempts: seq<Attempt>)
    requires d.pointer.None?
    ensures AfterAttempts(root, d, attempts) == d
    decreases |attempts|
  {
    if attempts != [] {
      assert LoadSnapshot(root, d) == Err(NoEvidence);
      NothingToRecover(root, d, attempts[1..]);
    }
  }

  /** t is unfinished and recoverable on d, or it is over on d. */
  ghost predicate Steady(t: Txn, d: Disk) {
    && !d.locked
    && if d.pointer.Some? then Holds(t, d)
       else Framed(t, d.files) && (AllAfterState(t, d.files) || AllBeforeState(t, d.files))
  }

  lemma EndsAreSteady(t: Txn, d: Disk, action: RecoveryAction, r: Run)
    requires RecoveryEnds(t, d, action, r) && !r.m.disk.locked
    ensures Steady(t, r.m.disk)
  {
    hide Holds, Framed, AllAfterState, AllBeforeState;
  }

  /** Any number of recoveries, each cut off anywhere: t stays recoverable or ends wholly on one side, no other
      bundle is touched, and the published changes stay a prefix of the plan if they were one: continuing only
      extends it and rolling back only shrinks it. */
  lemma {:induction false} AttemptsKeep(t: Txn, d: Disk, attempts: seq<Attempt>, k: nat, ordered: bool)
    returns (k': nat)
    requires Sound(t) && Holds(t, d) && !d.locked && Chosen(attempts)
    requires ordered ==> AtPrefix(t, d.files, k)
    ensures var d' := AfterAttempts(t.root, d, attempts);
      && Steady(t, d') && d'.bundles - {t.ID()} == d.bundles - {t.ID()}
      && (ordered ==> AtPrefix(t, d'.files, k'))
      && (ordered && (forall a :: a in attempts ==> a.action == Continue) ==> k <= k')
      && (ordered && (forall a :: a in attempts ==> a.action == Rollback) ==> k' <= k)
    decreases |attempts|
  {
    assert d.pointer.Some?;
    hide Sound, Holds, Framed, AllAfterState, AllBeforeState, AtPrefix, Attempted, Offers, Unobstructed,
      NoDirectoryMade, RecoveryEnds;
    if attempts == [] {
      k' := k;
    } else {
      var a := attempts[0];
      k' := RecoveryKeeps(t, d, a, k, ordered);
      var r := Attempted(t.root, d, a);
      EndsAreSteady(t, d, a.action, r);
      EndsKeepOthers(t, d, a.action, r);
      if r.m.disk.pointer.Some? {
        k' := AttemptsKeep(t, r.m.disk, attempts[1..], k', ordered);
      } else {
        NothingToRecover(t.root, r.m.disk, attempts[1..]);
      }
    }
  }

  lemma EndsKeepOthers(t: Txn, d: Disk, action: RecoveryAction, r: Run)
    requires RecoveryEnds(t, d, action, r)
    ensures r.m.disk.bundles - {t.ID()} == d.bundles - {t.ID()}
  {
  }

  /** Once every change is published, no recovery ever takes one back. */
  lemma {:induction false} AllAfterIsFinal(t: Txn, d: Disk, attempts: seq<Attempt>)
    requires Sound(t) && Holds(t, d) && !d.locked && Chosen(attempts) && AllAfterState(t, d.files)
    ensures AllAfterState(t, AfterAttempts(t.root, d, attempts).files)
    decreases |attempts|
  {
    hide Sound, Holds, Framed, Attempted, ClassificationAt, InputsResolve, NoDirectoryMade;
    if attempts != [] {
      var a := attempts[0];
      AllAfterIsPrefix(t, d.files);
      ClassifiedByPlan(t, d);
      var k := RecoveryKeeps(t, d, a, t.Size(), true);
      var d1 := Attempted(t.root, d, a).m.disk;
      assert AllAfterState(t, d1.files);
      if d1.pointer.Some? {
        AllAfterIsFinal(t, d1, attempts[1..]);
      } else {
        NothingToRecover(t.root, d1, attempts[1..]);
      }
    }
  }

  lemma FinalAfterOne(t: Txn, d: Disk, a: Attempt)
    requires Sound(t) && Holds(t, d) && !d.locked && a.action in {Rollback, Continue}
    ensures AllAfterState(t, d.files) ==> AllAfterState(t, Attempted(t.root, d, a).m.disk.files)
  {
    hide Sound, Holds, AllAfterState, Attempted;
    if AllAfterState(t, d.files) {
      AllAfterIsFinal(t, d, [a]);
      assert AfterAttempts(t.root, Attempted(t.root, d, a).m.disk, [a][1..]) == Attempted(t.root, d, a).m.disk;
    }
  }

  // ----- Apply, then recoveries -----

  lemma StageKeepsLock(root: Root, m: Machine, plan: Plan, journal: Journal, bootstrap: bool)
    requires bootstrap == (NAMESPACE !in m.disk.files) && ProperTree(m.disk.files)
    ensures Stage(root, m, plan, journal, bootstrap).m.disk.locked == m.disk.locked
  {
    hide Stage, StagedFiles;
    StagingIsAllOrNothing(root, m, plan, journal, bootstrap);
  }

  lemma {:induction false} PublishFromKeepsLock(root: Root, m: Machine, plan: Plan, j: Journal, bootstrap: bool, i: nat)
    requires i <= |plan.changes| == |j.actions|
    ensures PublishFrom(root, m, plan, j, bootstrap, i).m.disk.locked == m.disk.locked
    decreases |plan.changes| - i
  {
    hide InputsHold, AfterHolds, Published;
    if i < |plan.changes| {
      if Skipped(j, i, bootstrap) {
        PublishFromKeepsLock(root, m, plan, j, bootstrap, i + 1);
      } else {
        var r := PublishAction(root, m, plan, j, i);
        assert r.m.disk.locked == m.disk.locked;
        hide PublishAction;
        if r.Go? {
          PublishFromKeepsLock(root, r.m, plan, SetLabel(j, i, Verified), bootstrap, i + 1);
        }
      }
    }
  }

  lemma BodyKeepsLock(root: Root, m: Machine, plan: Plan, started: int, finished: int)
    requires ProperTree(m.disk.files)
    ensures ApplyBody(root, m, plan, started, finished).m.disk.locked == m.disk.locked
  {
    hide InputsHold, AllBeforeHold, AllAfterHold, Stage, PublishFrom, StagedAction, ReceiptFor, ReceiptHashes;
    var bootstrap := NAMESPACE !in m.disk.files;
    var journal := StagedJournal(root, m.disk.files, plan, started, bootstrap);
    StageKeepsLock(root, m, plan, journal, bootstrap);
    var r1 := Stage(root, m, plan, journal, bootstrap);
    PublishFromKeepsLock(root, r1.m, plan, journal, bootstrap, 0);
  }

  /** Apply never leaves a lock behind. */
  lemma ApplyUnlocks(root: Root, m: Machine, plan: Plan, approved: PlanID, started: int, finished: int)
    requires ProperTree(m.disk.files) && !m.disk.locked
    ensures !ApplyRun(root, m, plan, approved, started, finished).m.disk.locked
  {
    hide ApplyBody, ProperTree;
    BodyKeepsLock(root, m, plan, started, finished);
  }

  /** What every run of one plan leaves: no change at all, a transaction recovery can still settle, or every
      path of the plan on one side. */
  ghost predicate SafeDisk(t: Txn, d: Disk) {
    || (d.pointer.None? && d.files in {t.origin, StagedFiles(t.origin)})
    || (Sound(t) && Steady(t, d))
  }

  /** A human is needed only if the plan was not recovery-safe to begin with. */
  lemma NeverManual(t: Txn, d: Disk)
    requires Sound(t) && Steady(t, d) && d.pointer.Some?
    ensures ClassificationAt(t, d) == ManualRequired <==> !AllAfterState(t, d.files) && !RecoverySafe(t.origin, t.plan)
  {
    ClassifiedByPlan(t, d);
  }

  /** Apply cut off at any write, then any number of recoveries each cut off at any write. */
  lemma AnyRunIsSafe(root: Root, m: Machine, plan: Plan, approved: PlanID, started: int, finished: int,
                     attempts: seq<Attempt>)
    requires WellFormed(plan) && ProperTree(m.disk.files) && m.disk.pointer.None? && !m.disk.locked && Chosen(attempts)
    ensures var t := TxnOf(root, m.disk.files, plan, started);
      var d := AfterAttempts(root, ApplyRun(root, m, plan, approved, started, finished).m.disk, attempts);
      && SafeDisk(t, d)
      && d.bundles - {t.ID()} == m.disk.bundles - {t.ID()}
      && (Foreseen(m.disk.files, plan) && d.pointer.Some? ==> exists k :: AtPrefix(t, d.files, k))
  {
    var t := TxnOf(root, m.disk.files, plan, started);
    var r := ApplyRun(root, m, plan, approved, started, finished);
    hide WellFormed, ProperTree, ApplyRun, StagedFiles, Sound, Foreseen, Holds, AllAfterState, AllBeforeState, Framed,
      AtPrefix,
      StagedJournal, AfterAttempts, LabelsTrue;
    ApplyStopsSafely(root, m, plan, approved, started, finished);
    ApplyUnlocks(root, m, plan, approved, started, finished);
    if r.m.disk.pointer.Some? {
      if Foreseen(t.origin, t.plan) {
        var k :| AtPrefix(t, r.m.disk.files, k);
        var k' := AttemptsKeep(t, r.m.disk, attempts, k, true);
      } else {
        var k' := AttemptsKeep(t, r.m.disk, attempts, 0, false);
      }
    } else {
      NothingToRecover(root, r.m.disk, attempts);
      if plan.changes == [] {
        assert r.m.disk.files in {t.origin, StagedFiles(t.origin)};
      }
    }
  }
}
