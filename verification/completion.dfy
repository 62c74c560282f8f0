/** When Apply and recovery go through, and what they agree on when they do. */
module Completion {
  import opened Wrappers
  import opened Records
  import opened Planning
  import opened Transactions
  import opened Engine
  import opened Invariants
  import opened StagingProofs
  import opened ApplyProofs
  import opened RecoveryProofs
  import opened RecoveryOutcomes
  import opened Runs
  import opened EntryProofs
  import opened Budgets

  // ----- The same workspace by either road -----

  /** With every change published, and only they, a workspace looks one way everywhere but at the migration receipt. */
  lemma PublishedLookAlike(t: Txn, files: Files, files': Files, q: string)
    requires AllAfterState(t, files) && Framed(t, files) && AllAfterState(t, files') && Framed(t, files')
    requires q != t.plan.metadata.migrationReceiptPath
    ensures Look(files, q) == Look(files', q)
    ensures q !in ChangePaths(t.plan.changes) ==> Get(files, q) == Get(files', q)
  {
    hide Look, AfterState, StagedFiles;
    if q in ChangePaths(t.plan.changes) {
      var i := ChangePathIndex(t.plan.changes, q);
    } else {
      SameEntrySameLook(files, files', q);
    }
  }

  /** q is the path of a change that leaves kind and content as they are: there, only permissions may still differ. */
  ghost predicate OnlyPermissions(plan: Plan, q: string) {
    exists i :: 0 <= i < |plan.changes| && plan.changes[i].path == q && Silent(plan.changes[i])
  }

  /** The two workspaces agree on every entry, permissions included, but for the permissions of silent changes and for one
      path that is set aside. */
  ghost predicate Agree(plan: Plan, files: Files, files': Files, aside: string) {
    forall q :: q != aside ==>
      && Look(files, q) == Look(files', q)
      && (!OnlyPermissions(plan, q) ==> Get(files, q) == Get(files', q))
  }

  lemma PublishedAgree(t: Txn, files: Files, files': Files)
    requires AllAfterState(t, files) && Framed(t, files) && Exact(t, files)
    requires AllAfterState(t, files') && Framed(t, files') && Exact(t, files')
    ensures Agree(t.plan, files, files', t.plan.metadata.migrationReceiptPath)
  {
    hide Look, AfterState, BeforeState, Framed, AfterEntry, MadeByStaging;
    forall q | q != t.plan.metadata.migrationReceiptPath
      ensures Look(files, q) == Look(files', q)
      ensures !OnlyPermissions(t.plan, q) ==> Get(files, q) == Get(files', q)
    {
      PublishedLookAlike(t, files, files', q);
      if q in ChangePaths(t.plan.changes) && !OnlyPermissions(t.plan, q) {
        var i := ChangePathIndex(t.plan.changes, q);
        assert ExactAt(t, files, t.plan.changes[i]) && ExactAt(t, files', t.plan.changes[i]);
      }
    }
  }

  /** With no change published, a workspace is as Apply found it, but for the directories of staging. */
  lemma UnpublishedAgree(t: Txn, files: Files, d: Files)
    requires Sound(t) && AllBeforeState(t, files) && Framed(t, files) && Whole(t, files) && !AllAfterState(t, files)
    requires d == StagedFiles(t.origin)
    ensures forall q :: !OnlyPermissions(t.plan, q) ==> Get(files, q) == Get(d, q)
    ensures forall q :: Look(files, q) == Look(d, q)
  {
    hide Look, AfterState, BeforeState, Framed, AfterEntry, StagedFiles, Sound, Exact, AllAfterState;
    forall q
      ensures !OnlyPermissions(t.plan, q) ==> Get(files, q) == Get(d, q)
      ensures Look(files, q) == Look(d, q)
    {
      if q in ChangePaths(t.plan.changes) {
        var i := ChangePathIndex(t.plan.changes, q);
        UnpublishedEntry(t, files, i);
      } else {
        UnpublishedElsewhere(t, files, q);
        SameEntrySameLook(files, d, q);
      }
    }
  }

  lemma UnpublishedElsewhere(t: Txn, files: Files, q: string)
    requires Framed(t, files) && ReceiptIsLast(t, files) && !AllAfterState(t, files) && q !in ChangePaths(t.plan.changes)
    ensures Get(files, q) == Get(StagedFiles(t.origin), q)
  {
  }

  lemma UnpublishedEntry(t: Txn, files: Files, i: nat)
    requires Sound(t) && AllBeforeState(t, files) && Exact(t, files) && i < t.Size()
    ensures var c := t.plan.changes[i];
      && Look(files, c.path) == Look(StagedFiles(t.origin), c.path)
      && (!Silent(c) ==> Get(files, c.path) == Get(StagedFiles(t.origin), c.path))
  {
    var c := t.plan.changes[i];
    assert SoundChange(t, c) && ExactAt(t, files, c);
    StagedEntry(t.origin, c.path);
    if MadeByStaging(t, c.path) {
      SameEntrySameLook(files, StagedFiles(t.origin), c.path);
    } else {
      SameEntrySameLook(t.origin, StagedFiles(t.origin), c.path);
    }
  }

  /** The workspace is as Apply found it, staging's directories apart, but for the permissions of silent changes. */
  ghost predicate BackAtStart(t: Txn, files: Files) {
    forall q ::
      && Look(files, q) == Look(StagedFiles(t.origin), q)
      && (!OnlyPermissions(t.plan, q) ==> Get(files, q) == Get(StagedFiles(t.origin), q))
  }

  lemma UndoneIsNotAfter(t: Txn, files: Files, files': Files)
    requires EitherWay(t, files) && !AllAfterState(t, files) && AllBeforeState(t, files')
    ensures !AllAfterState(t, files')
  {
    hide Look, AfterState, BeforeState;
  }

  lemma UnpublishedIsStart(t: Txn, files: Files)
    requires Sound(t) && AllBeforeState(t, files) && Framed(t, files) && Whole(t, files) && !AllAfterState(t, files)
    ensures BackAtStart(t, files)
  {
    hide Sound, AllBeforeState, AllAfterState, Framed, Whole, Look, StagedFiles;
    UnpublishedAgree(t, files, StagedFiles(t.origin));
  }

  /** Which way the attempt that ends the transaction goes, if one does. */
  function SettlingAction(root: Root, d: Disk, attempts: seq<Attempt>): Option<RecoveryAction>
    decreases |attempts|
  {
    if d.pointer.None? || attempts == [] then None
    else
      var d1 := Attempted(root, d, attempts[0]).m.disk;
      if d1.pointer.None? then Some(attempts[0].action) else SettlingAction(root, d1, attempts[1..])
  }

  lemma OneSettles(t: Txn, d: Disk, a: Attempt)
    requires Sound(t) && Holds(t, d) && !d.locked && a.action in {Rollback, Continue} && Whole(t, d.files)
    ensures var d' := Attempted(t.root, d, a).m.disk;
      && !d'.locked && Whole(t, d'.files)
      && if d'.pointer.Some? then Holds(t, d')
         else Framed(t, d'.files) && Reached(t, d'.files, a.action) && (a.action == Rollback ==> BackAtStart(t, d'.files))
  {
    hide Sound, Framed, Live, AllAfterState, AllBeforeState, EitherWay, Attempted, Unobstructed, RecoverySafe, InputsResolve,
      Whole, BackAtStart, NoDirectoryMade, ReceiptAccepted, Progressed;
    ClassifiedByPlan(t, d);
    var k := RecoveryKeeps(t, d, a, 0, false);
    hide ClassificationAt;
    AttemptStaysWhole(t, d, a);
    var d' := Attempted(t.root, d, a).m.disk;
    if d'.pointer.None? && a.action == Rollback {
      UndoneIsNotAfter(t, d.files, d'.files);
      UnpublishedIsStart(t, d'.files);
    }
  }

  lemma OfferedSettles(t: Txn, d: Disk, a: Attempt)
    requires Sound(t) && Holds(t, d) && !d.locked && a.action in {Rollback, Continue}
    requires RecoverySafe(t.origin, t.plan) && InputsResolve(t.root, t.plan) && a.controllerID != "" && a.reason != ""
    requires a.writes >= t.Size() + 4 && Unobstructed(t, d.files, a)
    requires a.action == Rollback ==> !AllAfterState(t, d.files)
    ensures Attempted(t.root, d, a).Go?
    ensures RecoveryEnds(t, d, a.action, Attempted(t.root, d, a)) && !Attempted(t.root, d, a).m.disk.locked
  {
    hide Sound, EitherWay, Framed, Live, AllAfterState, Attempted, Unobstructed, RecoverySafe, InputsResolve, RecoveryEnds,
      NoDirectoryMade, ReceiptAccepted, Progressed;
    ClassifiedByPlan(t, d);
    var k := RecoveryKeeps(t, d, a, 0, false);
    hide ClassificationAt;
  }

  /** From any unfinished disk with a recovery-safe plan, a continue with the writes it needs ends with every
      change published, and a rollback with the workspace as it was before Apply, permissions and the migration
      receipt's path included. */
  lemma RecoverySettles(t: Txn, d: Disk, a: Attempt)
    requires Sound(t) && Holds(t, d) && !d.locked && a.action in {Rollback, Continue}
    requires RecoverySafe(t.origin, t.plan) && InputsResolve(t.root, t.plan) && a.controllerID != "" && a.reason != ""
    requires a.writes >= t.Size() + 4 && Unobstructed(t, d.files, a)
    requires a.action == Rollback ==> !AllAfterState(t, d.files)
    ensures var d' := Attempted(t.root, d, a).m.disk;
      && d'.pointer.None? && !d'.locked && Framed(t, d'.files) && Reached(t, d'.files, a.action)
      && (Whole(t, d.files) ==> Whole(t, d'.files))
      && (Whole(t, d.files) && a.action == Rollback ==> BackAtStart(t, d'.files))
  {
    hide Sound, Holds, Framed, AllAfterState, AllBeforeState, Attempted, Unobstructed, RecoverySafe, InputsResolve,
      Whole, BackAtStart;
    OfferedSettles(t, d, a);
    if Whole(t, d.files) {
      OneSettles(t, d, a);
    }
  }

  lemma {:induction false} AttemptsSettle(t: Txn, d: Disk, attempts: seq<Attempt>)
    requires Sound(t) && Holds(t, d) && !d.locked && Chosen(attempts) && Whole(t, d.files)
    requires SettlingAction(t.root, d, attempts).Some?
    ensures var d', action := AfterAttempts(t.root, d, attempts), SettlingAction(t.root, d, attempts).value;
      && d'.pointer.None? && Framed(t, d'.files) && Whole(t, d'.files) && Reached(t, d'.files, action)
      && (action == Rollback ==> BackAtStart(t, d'.files))
    decreases |attempts|
  {
    hide Sound, Holds, Framed, AllAfterState, AllBeforeState, Attempted, Whole, BackAtStart;
    var d1 := Attempted(t.root, d, attempts[0]).m.disk;
    OneSettles(t, d, attempts[0]);
    if d1.pointer.Some? {
      AttemptsSettle(t, d1, attempts[1..]);
    } else {
      NothingToRecover(t.root, d1, attempts[1..]);
    }
  }

  /** The same plan on the same files, started at another time. */
  lemma SameEnds(t: Txn, t': Txn, files: Files)
    requires t' == t.(journal := t'.journal)
    ensures AllAfterState(t', files) == AllAfterState(t, files) && Framed(t', files) == Framed(t, files)
    ensures Exact(t', files) == Exact(t, files) && BackAtStart(t', files) == BackAtStart(t, files)
  {
    hide Look, AfterState, BeforeState, StagedFiles;
    forall c
      ensures ExactAt(t', files, c) == ExactAt(t, files, c)
    {
    }
  }

  /** What Apply can have left when its recovery begins. */
  lemma CutApply(root: Root, m: Machine, plan: Plan, approved: PlanID, started: int, finished: int)
    requires WellFormed(plan) && ProperTree(m.disk.files) && m.disk.pointer.None? && !m.disk.locked
    ensures var r, t := ApplyRun(root, m, plan, approved, started, finished), TxnOf(root, m.disk.files, plan, started);
      && !r.m.disk.locked
      && (r.m.disk.pointer.Some? ==> Sound(t) && Holds(t, r.m.disk) && Whole(t, r.m.disk.files))
      && (r.Go? && plan.changes != [] ==>
            AllAfterState(t, r.m.disk.files) && Framed(t, r.m.disk.files) && Exact(t, r.m.disk.files))
  {
    hide WellFormed, ProperTree, ApplyRun, StagedFiles, Sound, Foreseen, Holds, AllAfterState, Framed, StagedJournal, LabelsTrue,
      Exact, ReceiptIsLast;
    ApplyStopsSafely(root, m, plan, approved, started, finished);
    ApplyUnlocks(root, m, plan, approved, started, finished);
    ApplyIsWhole(root, m, plan, approved, started, finished);
  }

  /** Continuing from any interruption reaches the same workspace as an uninterrupted Apply: cut Apply off at any write
      and make any attempts, each cut off anywhere; when one of them ends the transaction by continuing, every entry is
      the one Apply would have left, permissions included, but for the permissions of silent changes and for the
      migration receipt, which is dated. */
  lemma ContinueReachesApply(root: Root, full: Machine, cut: Machine, plan: Plan, approved: PlanID, started: int, finished: int,
                             started': int, finished': int, attempts: seq<Attempt>)
    requires WellFormed(plan) && ProperTree(full.disk.files) && full.disk.pointer.None? && !full.disk.locked
    requires cut.disk == full.disk && plan.changes != [] && Chosen(attempts)
    requires ApplyRun(root, full, plan, approved, started, finished).Go?
    requires SettlingAction(root, ApplyRun(root, cut, plan, approved, started', finished').m.disk, attempts) == Some(Continue)
    ensures var d := AfterAttempts(root, ApplyRun(root, cut, plan, approved, started', finished').m.disk, attempts);
      && d.pointer.None?
      && Agree(plan, ApplyRun(root, full, plan, approved, started, finished).m.disk.files, d.files, plan.metadata.migrationReceiptPath)
  {
    hide WellFormed, ProperTree, ApplyRun, StagedFiles, Sound, Holds, AllAfterState, Framed, StagedJournal, Exact, Agree,
      AfterAttempts, SettlingAction, BackAtStart, ReceiptIsLast;
    var t, t' := TxnOf(root, full.disk.files, plan, started), TxnOf(root, full.disk.files, plan, started');
    CutApply(root, full, plan, approved, started, finished);
    CutApply(root, cut, plan, approved, started', finished');
    var d := ApplyRun(root, cut, plan, approved, started', finished').m.disk;
    SettledWasLive(root, d, attempts);
    AttemptsSettle(t', d, attempts);
    SameEnds(t, t', AfterAttempts(root, d, attempts).files);
    PublishedAgree(t, ApplyRun(root, full, plan, approved, started, finished).m.disk.files, AfterAttempts(root, d, attempts).files);
  }

  lemma SettledWasLive(root: Root, d: Disk, attempts: seq<Attempt>)
    requires SettlingAction(root, d, attempts).Some?
    ensures d.pointer.Some?
  {
    hide Attempted;
  }

  /** And when one of them ends it by rolling back, the workspace is as Apply found it: every entry but for the permissions
      of silent changes, the migration receipt's path included, and staging's directories the only trace. */
  lemma RollbackReachesStart(root: Root, m: Machine, plan: Plan, approved: PlanID, started: int, finished: int,
                             attempts: seq<Attempt>)
    requires WellFormed(plan) && ProperTree(m.disk.files) && m.disk.pointer.None? && !m.disk.locked && Chosen(attempts)
    requires SettlingAction(root, ApplyRun(root, m, plan, approved, started, finished).m.disk, attempts) == Some(Rollback)
    ensures var d := AfterAttempts(root, ApplyRun(root, m, plan, approved, started, finished).m.disk, attempts);
      d.pointer.None? && BackAtStart(TxnOf(root, m.disk.files, plan, started), d.files)
  {
    hide WellFormed, ProperTree, ApplyRun, StagedFiles, Sound, Holds, AllAfterState, AllBeforeState, Framed, StagedJournal, Exact,
      AfterAttempts, SettlingAction, BackAtStart, ReceiptIsLast;
    CutApply(root, m, plan, approved, started, finished);
    var d := ApplyRun(root, m, plan, approved, started, finished).m.disk;
    SettledWasLive(root, d, attempts);
    AttemptsSettle(TxnOf(root, m.disk.files, plan, started), d, attempts);
  }

  // ----- The migration receipt -----

  /** The migration receipt is on disk, dated `written`. */
  ghost predicate ReceiptWritten(t: Txn, files: Files, written: int) {
    var path := t.plan.metadata.migrationReceiptPath;
    && path != "" && path in files
    && files[path] == File(t.root.encodeReceipt(ReceiptFor(t.plan.id, t.plan.metadata, t.plan.changes, written)), PRIVATE_FILE_MODE)
  }

  /** A migration receipt is to be written, and nothing is at its path yet. */
  ghost predicate ReceiptDue(t: Txn, files: Files) {
    var path := t.plan.metadata.migrationReceiptPath;
    path != "" && ".uawp/" <= path && t.root.resolves(path) && path !in files
  }

  /** Everything is published and the receipt is written, but the live pointer is still out. */
  ghost predicate Stranded(t: Txn, d: Disk, written: int) {
    Holds(t, d) && AllAfterState(t, d.files) && ReceiptWritten(t, d.files, written)
  }

  ghost predicate Injective(encode: MigrationReceipt -> Bytes) {
    forall x, y :: encode(x) == encode(y) ==> x == y
  }

  /** A receipt on disk is accepted again only within its own second. */
  lemma ReceiptFitsItsSecond(t: Txn, files: Files, written: int, now: int)
    requires ReceiptWritten(t, files, written) && Injective(t.root.encodeReceipt)
    requires ".uawp/" <= t.plan.metadata.migrationReceiptPath && t.root.resolves(t.plan.metadata.migrationReceiptPath)
    ensures ReceiptAccepted(t, files, now) <==> now / NANOSECONDS == written / NANOSECONDS
  {
    var a, b := ReceiptFor(t.plan.id, t.plan.metadata, t.plan.changes, now), ReceiptFor(t.plan.id, t.plan.metadata, t.plan.changes, written);
    assert a.completedAt == now / NANOSECONDS && b.completedAt == written / NANOSECONDS;
    if now / NANOSECONDS == written / NANOSECONDS {
      assert a == b;
    }
  }

  /** Once Apply or a continue has written its migration receipt and stopped before the live pointer was cleared,
      the transaction can never be settled by attempts in any other second: a rollback is refused because
      everything is published, and a continue because its receipt has a different time. */
  lemma {:induction false} ReceiptBlocksRecovery(t: Txn, d: Disk, written: int, attempts: seq<Attempt>)
    requires Sound(t) && Holds(t, d) && !d.locked && Chosen(attempts) && AllAfterState(t, d.files)
    requires ReceiptWritten(t, d.files, written) && Injective(t.root.encodeReceipt)
    requires forall a :: a in attempts ==> a.now / NANOSECONDS != written / NANOSECONDS
    ensures AfterAttempts(t.root, d, attempts).pointer == d.pointer
    ensures AllAfterState(t, AfterAttempts(t.root, d, attempts).files)
    decreases |attempts|
  {
    if attempts != [] {
      var a := attempts[0];
      var d' := Attempted(t.root, d, a).m.disk;
      BlockedAttempt(t, d, written, a);
      hide Sound, Holds, AllAfterState, ReceiptWritten, Attempted;
      ReceiptBlocksRecovery(t, d', written, attempts[1..]);
    }
  }

  lemma BlockedAttempt(t: Txn, d: Disk, written: int, a: Attempt)
    requires Sound(t) && Holds(t, d) && !d.locked && a.action in {Rollback, Continue} && AllAfterState(t, d.files)
    requires ReceiptWritten(t, d.files, written) && Injective(t.root.encodeReceipt)
    requires a.now / NANOSECONDS != written / NANOSECONDS
    ensures var d' := Attempted(t.root, d, a).m.disk;
      && d'.pointer == d.pointer && Holds(t, d') && !d'.locked && AllAfterState(t, d'.files)
      && ReceiptWritten(t, d'.files, written)
  {
    hide Sound, Holds, AllAfterState, Attempted, InputsResolve, ClassificationAt, Framed, NoDirectoryMade,
      RecoveryEnds, ReceiptFor, ReceiptAccepted,
      Progressed;
    var d' := Attempted(t.root, d, a).m.disk;
    ClassifiedByPlan(t, d);
    AllAfterIsPrefix(t, d.files);
    var k := RecoveryKeeps(t, d, a, t.Size(), true);
    ReceiptRefused(t, d.files, written, a.now);
    if a.action == Continue {
      PrefixIsAllAfter(t, d'.files, k);
      ReceiptPathIsOutside(t);
      BlockedStaysLive(t, d, a.action, Attempted(t.root, d, a));
      OutsideMeansKept(t, d.files, d'.files, t.plan.metadata.migrationReceiptPath);
    }
  }

  lemma PrefixIsAllAfter(t: Txn, files: Files, k: nat)
    requires AtPrefix(t, files, k) && k >= t.Size()
    ensures AllAfterState(t, files)
  {
  }

  lemma ReceiptRefused(t: Txn, files: Files, written: int, now: int)
    requires ReceiptWritten(t, files, written) && Injective(t.root.encodeReceipt)
    requires now / NANOSECONDS != written / NANOSECONDS
    ensures !ReceiptAccepted(t, files, now)
  {
    var a, b := ReceiptFor(t.plan.id, t.plan.metadata, t.plan.changes, now), ReceiptFor(t.plan.id, t.plan.metadata, t.plan.changes, written);
    assert a.completedAt != b.completedAt;
  }

  lemma BlockedStaysLive(t: Txn, d: Disk, action: RecoveryAction, r: Run)
    requires RecoveryEnds(t, d, action, r) && r.Halt? && Holds(t, d)
    ensures Holds(t, r.m.disk) && r.m.disk.pointer == d.pointer
  {
    hide EitherWay, Framed, BundleKept;
  }

  // ----- When Apply goes through -----

  /** Everything Apply checks before it publishes, apart from the write budget. */
  ghost predicate ReadyToApply(t: Txn, d: Disk, approved: PlanID, finished: int) {
    && approved == t.plan.id != NoPlanID && t.plan.workspace == t.root.path && t.plan.changes != []
    && NAMESPACE in d.files && d.files[NAMESPACE].Directory? && !d.locked && d.pointer.None?
    && (t.plan.operation == "purge-abort" || PURGE_MARKER !in d.files)
    && InputsHold(d.files, t.plan.inputs, {}) && AllBeforeHold(t.root, d.files, t.plan.changes)
    && (RECOVERY_ROOT in d.files ==> d.files[RECOVERY_ROOT].Directory?)
    && t.journal.transactionID !in d.bundles && EncodablePlan(t.plan) && ValidJournal(t.journal)
    && TargetsReadable(t.root, d.files, t.plan.changes)
    && ReceiptAccepted(t, StagedFiles(d.files), finished)
  }

  lemma LoopGoesThrough(t: Txn, m: Machine, started: int, finished: int)
    requires t == TxnOf(t.root, m.disk.files, t.plan, started) && WellFormed(t.plan) && ProperTree(m.disk.files)
    requires ReadyToApply(t, m.disk.(locked := false), t.plan.id, finished) && Foreseen(m.disk.files, t.plan)
    requires m.left >= 5 * t.Size() + 10
    ensures ApplyBody(t.root, m, t.plan, started, finished).Go?
  {
    hide InputsHold, AllBeforeHold, EncodablePlan, ValidJournal, WellFormed, ProperTree, StagedFiles, FreshBundle,
      TargetsReadable,
      Sound, Complete, PublishFrom, Stage, Foreseen, LabelsTrue, Journaled, LabelledTo, PublishedTo, StagedJournal,
      AllAfterHold, AllAfterState, EitherWay, Framed, AtPrefix;
    StagingGoesThrough(t.root, m, t.plan, t.journal);
    StagingIsAllOrNothing(t.root, m, t.plan, t.journal, false);
    var r1 := Stage(t.root, m, t.plan, t.journal, false);
    StagedIsSound(t, started, r1.m.disk);
    LabelledFacts(t, t.journal, 0);
    LoopFinishes(t, r1.m, finished);
  }

  lemma LoopFinishes(t: Txn, m: Machine, finished: int)
    requires |t.journal.actions| == t.Size() && Sound(t) && LabelledTo(t, t.journal, 0) && PublishedTo(t, m.disk.files, 0)
    requires Journaled(t, m.disk, t.journal)
    requires LabelsTrue(t, m.disk) && Foreseen(t.origin, t.plan) && ReceiptAccepted(t, StagedFiles(t.origin), finished)
    requires m.left >= 4 * t.Size() + 3
    ensures var r := PublishFrom(t.root, m, t.plan, t.journal, t.bootstrap, 0);
      r.Go? && AllAfterHold(t.root, r.m.disk.files, t.plan.changes) && Complete(t.root, r.m, t.plan, t.journal, finished).Go?
  {
    hide Sound, WellFormed, AllAfterState, AllAfterHold, PublishedTo, EitherWay, Framed, AtPrefix, LabelsTrue,
      BundleKept,
      LabelledTo, StagedFiles, Complete, PublishFrom, Foreseen;
    var k := LoopKeeps(t, m, t.journal, 0);
    var r := PublishFrom(t.root, m, t.plan, t.journal, t.bootstrap, 0);
    PublishedIsFramed(t, r.m.disk.files, k);
    AllAfterPasses(t, r.m.disk.files);
    ReceiptStillAccepted(t, r.m.disk.files, finished);
    CompletionGoesThrough(t, r.m, finished);
  }

  lemma ReceiptStillAccepted(t: Txn, files: Files, finished: int)
    requires Sound(t) && Framed(t, files) && ReceiptAccepted(t, StagedFiles(t.origin), finished)
    requires PublishedTo(t, files, t.Size())
    ensures ReceiptAccepted(t, files, finished)
  {
    ReceiptPathIsOutside(t);
    var path := t.plan.metadata.migrationReceiptPath;
    assert Get(files, path) == Get(StagedFiles(t.origin), path);
    hide Sound, Framed, PublishedTo, ReceiptFor, StagedFiles;
  }

  lemma CompletionGoesThrough(t: Txn, m: Machine, finished: int)
    requires Sound(t) && Live(t, m.disk) && m.disk.bundles[t.ID()].receipt == None
    requires ReceiptAccepted(t, m.disk.files, finished) && m.left >= 3
    ensures Complete(t.root, m, t.plan, t.journal, finished).Go?
  {
    assert t.journal.planID == t.plan.id by {
      SoundFacts(t);
    }
    hide Sound, BundleKept, ReceiptAccepted, ReceiptHashes, ReceiptFor;
    ReceiptAcceptance(t, m, finished);
    ReceiptLeavesRecords(t, m, finished);
    hide WriteMigrationReceipt;
  }

  lemma ReceiptLeavesRecords(t: Txn, m: Machine, finished: int)
    ensures var r := WriteMigrationReceipt(t.root, m, t.plan.id, t.plan.metadata, t.plan.changes, finished);
      r.m.disk.bundles == m.disk.bundles
  {
    hide ReceiptFor;
  }

  /** Publishing from action i on cannot go through when it has to make a directory that is there already. */
  lemma {:induction false} ExistingDirectoryBlocks(root: Root, m: Machine, plan: Plan, j: Journal, i: nat, x: nat)
    requires i <= x < |plan.changes| == |j.actions| && DistinctPaths(plan.changes)
    requires plan.changes[x].kind == CreateDir && plan.changes[x].path in m.disk.files
    ensures PublishFrom(root, m, plan, j, false, i).Halt?
    decreases |plan.changes| - i
  {
    hide InputsHold, AfterHolds;
    var r := PublishAction(root, m, plan, j, i);
    if i == x {
      TurnRefusesExisting(root, m, plan, j, i);
    } else if r.Go? {
      TurnKeepsOthers(root, m, plan, j, i, plan.changes[x].path);
      ExistingDirectoryBlocks(root, r.m, plan, SetLabel(j, i, Verified), i + 1, x);
    }
  }

  lemma TurnRefusesExisting(root: Root, m: Machine, plan: Plan, j: Journal, i: nat)
    requires i < |plan.changes| == |j.actions|
    requires plan.changes[i].kind == CreateDir && plan.changes[i].path in m.disk.files
    ensures PublishAction(root, m, plan, j, i).Halt?
  {
    hide InputsHold, AfterHolds;
  }

  lemma TurnKeepsOthers(root: Root, m: Machine, plan: Plan, j: Journal, i: nat, path: string)
    requires i < |plan.changes| == |j.actions| && path != plan.changes[i].path && path in m.disk.files
    ensures path in PublishAction(root, m, plan, j, i).m.disk.files
  {
    hide InputsHold, AfterHolds;
  }

  /** Staging makes .uawp/recovery; a plan that expected to find it missing is then refused. */
  lemma UnforeseenBlocks(t: Txn, m: Machine, m1: Machine, j: Journal)
    requires WellFormed(t.plan) && |j.actions| == t.Size() > 0 && DistinctPaths(t.plan.changes)
    requires NAMESPACE in m.disk.files && !Foreseen(m.disk.files, t.plan)
    requires InputsHold(m.disk.files, t.plan.inputs, {}) && AllBeforeHold(t.root, m.disk.files, t.plan.changes)
    requires EncodablePlan(t.plan) && TargetsReadable(t.root, m.disk.files, t.plan.changes)
    requires m1.disk.files == StagedFiles(m.disk.files)
    ensures PublishFrom(t.root, m1, t.plan, j, false, 0).Halt?
  {
    hide WellFormed, PublishFrom, EncodablePlan, TargetsReadable, AllBeforeHold, InputsHold, DistinctPaths;
    if RECOVERY_ROOT in ChangePaths(t.plan.changes) {
      var x := ChangePathIndex(t.plan.changes, RECOVERY_ROOT);
      MissingTargetIsDirectory(t, m.disk.files, x);
      ExistingDirectoryBlocks(t.root, m1, t.plan, j, 0, x);
    } else {
      var k :| 0 <= k < |t.plan.inputs| && t.plan.inputs[k].path == RECOVERY_ROOT;
      StagedInputDrifts(m.disk.files, t.plan.inputs, k, ChangePaths(t.plan.changes[..0]));
      DriftBlocks(t.root, m1, t.plan, j);
    }
  }

  lemma StagedInputDrifts(files: Files, inputs: seq<Input>, k: nat, skip: set<string>)
    requires k < |inputs| && inputs[k].path == RECOVERY_ROOT && RECOVERY_ROOT !in skip && InputsHold(files, inputs, {})
    requires NAMESPACE in files && RECOVERY_ROOT !in files
    ensures !InputsHold(StagedFiles(files), inputs, skip)
  {
    assert InputHolds(files, inputs[k]) && !InputHolds(StagedFiles(files), inputs[k]);
  }

  lemma DriftBlocks(root: Root, m: Machine, plan: Plan, j: Journal)
    requires |j.actions| == |plan.changes| > 0 && !InputsHold(m.disk.files, plan.inputs, ChangePaths(plan.changes[..0]))
    ensures PublishFrom(root, m, plan, j, false, 0).Halt?
  {
    hide InputsHold;
    assert PublishAction(root, m, plan, j, 0).Halt?;
  }

  lemma MissingTargetIsDirectory(t: Txn, files: Files, x: nat)
    requires WellFormed(t.plan) && EncodablePlan(t.plan) && TargetsReadable(t.root, files, t.plan.changes)
    requires AllBeforeHold(t.root, files, t.plan.changes)
    requires x < t.Size() && t.plan.changes[x].path == RECOVERY_ROOT && RECOVERY_ROOT !in files
    ensures t.plan.changes[x].kind == CreateDir
  {
    var c := t.plan.changes[x];
    assert c in t.plan.changes && RestorableChange(c) && BeforeHolds(t.root, files, c);
  }

  /** On an initialised workspace with everything in order, an Apply with enough writes completes exactly when
      the plan did not count on .uawp/recovery being missing: staging makes that directory before the inputs
      are checked again and before the plan's own mkdir. */
  lemma ApplyGoesThroughExactly(root: Root, m: Machine, plan: Plan, started: int, finished: int)
    requires WellFormed(plan) && ProperTree(m.disk.files)
    requires ReadyToApply(TxnOf(root, m.disk.files, plan, started), m.disk, plan.id, finished)
    requires m.left >= 5 * |plan.changes| + 11
    ensures ApplyRun(root, m, plan, plan.id, started, finished).Go? <==> Foreseen(m.disk.files, plan)
  {
    hide WellFormed, ProperTree, ApplyBody, StagedFiles, StagedJournal, Foreseen, InputsHold, AllBeforeHold,
      EncodablePlan, ValidJournal, TargetsReadable,
      ReceiptAccepted, AcquireLock, ApplyRun;
    var t := TxnOf(root, m.disk.files, plan, started);
    var m1 := Machine(m.disk.(locked := true), m.left - 1);
    ApplyUnfolds(root, m, plan, started, finished);
    if Foreseen(m.disk.files, plan) {
      LoopGoesThrough(t, m1, started, finished);
    } else {
      ReadyHasChanges(t, m.disk, plan.id, finished);
      UnforeseenBody(t, m1, started, finished);
    }
  }

  lemma ReadyHasChanges(t: Txn, d: Disk, approved: PlanID, finished: int)
    requires ReadyToApply(t, d, approved, finished)
    ensures t.plan.changes != [] && t.plan.workspace == t.root.path && NAMESPACE in d.files && d.pointer.None?
  {
  }

  lemma ApplyUnfolds(root: Root, m: Machine, plan: Plan, started: int, finished: int)
    requires ReadyToApply(TxnOf(root, m.disk.files, plan, started), m.disk, plan.id, finished) && m.left > 0
    ensures ApplyRun(root, m, plan, plan.id, started, finished)
         == Unlocked(ApplyBody(root, Machine(m.disk.(locked := true), m.left - 1), plan, started, finished))
  {
    hide ApplyBody, StagedFiles, StagedJournal, InputsHold, AllBeforeHold, EncodablePlan, ValidJournal,
      TargetsReadable, ReceiptAccepted;
  }

  lemma UnforeseenBody(t: Txn, m: Machine, started: int, finished: int)
    requires t == TxnOf(t.root, m.disk.files, t.plan, started) && WellFormed(t.plan) && ProperTree(m.disk.files)
    requires t.plan.workspace == t.root.path && t.plan.changes != [] && m.disk.pointer.None?
    requires NAMESPACE in m.disk.files && !Foreseen(m.disk.files, t.plan)
    ensures ApplyBody(t.root, m, t.plan, started, finished).Halt?
  {
    hide InputsHold, AllBeforeHold, EncodablePlan, ValidJournal, WellFormed, ProperTree, StagedFiles, FreshBundle,
      TargetsReadable, Sound, Complete, PublishFrom, Stage, Foreseen, LabelsTrue, Journaled, LabelledTo, PublishedTo, AllAfterHold,
      StagedJournal;
    if InputsHold(m.disk.files, t.plan.inputs, {}) && AllBeforeHold(t.root, m.disk.files, t.plan.changes) {
      StagingIsAllOrNothing(t.root, m, t.plan, t.journal, false);
      var r1 := Stage(t.root, m, t.plan, t.journal, false);
      if r1.Go? {
        StagedIsSound(t, started, r1.m.disk);
        SoundFacts(t);
        SoundIsReadable(t);
        UnforeseenBlocks(t, m, r1.m, t.journal);
      }
    }
  }

  lemma SoundIsReadable(t: Txn)
    requires Sound(t)
    ensures TargetsReadable(t.root, t.origin, t.plan.changes)
  {
    hide EncodablePlan, ValidJournal, StagedJournal, InputsHold, WellFormed, ProperTree;
    forall k | 0 <= k < t.Size() && NeedsBackup(t.plan.changes[k])
      ensures t.root.resolves(t.plan.changes[k].path) && FitsRecord(t.origin, t.plan.changes[k].path)
      ensures HashBytes(t.origin[t.plan.changes[k].path].content) == t.plan.changes[k].before
    {
      assert SoundChange(t, t.plan.changes[k]);
    }
  }

  /** An unforeseen plan never completes, whatever the budget and the instant. */
  lemma UnforeseenNeverCompletes(root: Root, m: Machine, plan: Plan, approved: PlanID, started: int, finished: int)
    requires WellFormed(plan) && ProperTree(m.disk.files) && plan.changes != []
    requires NAMESPACE in m.disk.files && !Foreseen(m.disk.files, plan)
    ensures ApplyRun(root, m, plan, approved, started, finished).Halt?
  {
    hide WellFormed, ProperTree, ApplyBody, StagedFiles, StagedJournal, Foreseen;
    if plan.workspace == root.path {
      var r1 := AcquireLock(m, plan.operation == "purge-abort");
      if r1.Go? {
        UnforeseenBody(TxnOf(root, m.disk.files, plan, started), r1.m, started, finished);
      }
    }
  }

  // ----- A migration that cannot be settled -----

  /** Completion cut off between the migration receipt and the live pointer. */
  lemma CompletionStrandsReceipt(t: Txn, m: Machine, finished: int)
    requires Sound(t) && Live(t, m.disk) && AllAfterState(t, m.disk.files) && Framed(t, m.disk.files)
    requires m.disk.bundles[t.ID()].receipt == None && m.left in {1, 2}
    requires ReceiptDue(t, m.disk.files)
    ensures var r := Complete(t.root, m, t.plan, t.journal, finished); r.Halt? && Stranded(t, r.m.disk, finished)
  {
    SoundFacts(t);
    hide Sound, AllAfterState, Framed, BundleKept, ReceiptFor, ReceiptHashes, StagedAction, ValidJournal, ValidPointer,
      PlanAgrees, DistinctPaths;
    CompletionKeeps(t, m, finished);
    var r := Complete(t.root, m, t.plan, t.journal, finished);
    AllAfterIsPrefix(t, r.m.disk.files);
  }

  /** The budget with which the loop ends one write short of the transaction receipt. */
  lemma LoopReaches(t: Txn, m: Machine, finished: int) returns (left: nat)
    requires Sound(t) && LabelledTo(t, t.journal, 0) && PublishedTo(t, m.disk.files, 0) && |t.journal.actions| == t.Size()
    requires Journaled(t, m.disk, t.journal)
    requires LabelsTrue(t, m.disk) && Foreseen(t.origin, t.plan) && ReceiptDue(t, StagedFiles(t.origin))
    requires m.left >= 4 * t.Size() + 1
    ensures left <= m.left
    ensures var r := AfterStaging(t.root, WithBudget(m, left), t.plan, t.journal, t.bootstrap, finished);
      r.Halt? && Stranded(t, r.m.disk, finished)
  {
    hide Sound, WellFormed, AllAfterState, AllAfterHold, PublishedTo, EitherWay, Framed, AtPrefix, LabelsTrue,
      BundleKept, LabelledTo, StagedFiles, Complete, PublishFrom, Foreseen, ReceiptDue, Stranded;
    var k := LoopKeeps(t, m, t.journal, 0);
    var r := PublishFrom(t.root, m, t.plan, t.journal, t.bootstrap, 0);
    PublishedIsFramed(t, r.m.disk.files, k);
    AllAfterPasses(t, r.m.disk.files);
    LoopRepeats(t.root, m, t.plan, t.journal, t.bootstrap, 0, m.left);
    left := m.left - (r.m.left - 1);
    LoopRepeats(t.root, m, t.plan, t.journal, t.bootstrap, 0, left);
    ReceiptStaysDue(t, r.m.disk.files);
    CompletionStrandsReceipt(t, WithBudget(r.m, 1), finished);
  }

  lemma ReceiptStaysDue(t: Txn, files: Files)
    requires Sound(t) && PublishedTo(t, files, t.Size()) && ReceiptDue(t, StagedFiles(t.origin))
    ensures ReceiptDue(t, files)
  {
    ReceiptPathIsOutside(t);
    var path := t.plan.metadata.migrationReceiptPath;
    assert Get(files, path) == Get(StagedFiles(t.origin), path);
    hide Sound, PublishedTo, StagedFiles;
  }

  lemma BodyReaches(t: Txn, m: Machine, started: int, finished: int) returns (left: nat)
    requires t == TxnOf(t.root, m.disk.files, t.plan, started) && WellFormed(t.plan) && ProperTree(m.disk.files)
    requires ReadyToApply(t, m.disk.(locked := false), t.plan.id, finished) && Foreseen(m.disk.files, t.plan)
    requires ReceiptDue(t, StagedFiles(t.origin)) && m.left >= 5 * t.Size() + 10
    ensures var r := ApplyBody(t.root, WithBudget(m, left), t.plan, started, finished);
      r.Halt? && Sound(t) && Stranded(t, r.m.disk, finished)
  {
    hide InputsHold, AllBeforeHold, EncodablePlan, ValidJournal, WellFormed, ProperTree, StagedFiles, FreshBundle,
      TargetsReadable, Sound, Complete, PublishFrom, Stage, Foreseen, LabelsTrue, Journaled, LabelledTo, PublishedTo, StagedJournal,
      AllAfterHold, ReceiptDue, Stranded, ReceiptAccepted;
    StagingGoesThrough(t.root, m, t.plan, t.journal);
    StagingIsAllOrNothing(t.root, m, t.plan, t.journal, false);
    var r1 := Stage(t.root, m, t.plan, t.journal, false);
    StagedIsSound(t, started, r1.m.disk);
    LabelledFacts(t, t.journal, 0);
    StagingRepeats(t.root, m, t.plan, t.journal, false, m.left);
    var rest := LoopReaches(t, r1.m, finished);
    left := m.left - r1.m.left + rest;
    StagingRepeats(t.root, m, t.plan, t.journal, false, left);
  }

  /** Apply can stop exactly there: for every plan in order that writes a migration receipt there is a write at which Apply
      leaves everything published, the receipt written and the live pointer out. */
  lemma ApplyCanStrandReceipt(root: Root, d: Disk, plan: Plan, started: int, finished: int) returns (writes: nat)
    requires WellFormed(plan) && ProperTree(d.files) && Foreseen(d.files, plan)
    requires ReadyToApply(TxnOf(root, d.files, plan, started), d, plan.id, finished)
    requires ReceiptDue(TxnOf(root, d.files, plan, started), StagedFiles(d.files))
    ensures var t, r := TxnOf(root, d.files, plan, started), ApplyRun(root, Machine(d, writes), plan, plan.id, started, finished);
      r.Halt? && !r.m.disk.locked && Sound(t) && Stranded(t, r.m.disk, finished)
  {
    hide WellFormed, ProperTree, ApplyBody, StagedFiles, StagedJournal, Foreseen, InputsHold, AllBeforeHold,
      EncodablePlan, ValidJournal, TargetsReadable, ReceiptAccepted, AcquireLock, ApplyRun, ReceiptDue, Stranded, Sound;
    var t := TxnOf(root, d.files, plan, started);
    var m := Machine(d.(locked := true), 5 * |plan.changes| + 10);
    var left := BodyReaches(t, m, started, finished);
    writes := left + 1;
    ApplyUnfolds(root, Machine(d, writes), plan, started, finished);
    StrandedIgnoresLock(t, ApplyBody(root, WithBudget(m, left), plan, started, finished).m.disk, finished);
  }

  lemma StrandedIgnoresLock(t: Txn, d: Disk, written: int)
    requires Stranded(t, d, written)
    ensures Stranded(t, d.(locked := false), written)
  {
    LiveIgnoresLock(t, d, false);
  }

  /** And from there no attempt outside the receipt's own second ever clears the live pointer. */
  lemma StrandedStays(t: Txn, d: Disk, written: int, attempts: seq<Attempt>)
    requires Sound(t) && Stranded(t, d, written) && !d.locked && Chosen(attempts) && Injective(t.root.encodeReceipt)
    requires forall a :: a in attempts ==> a.now / NANOSECONDS != written / NANOSECONDS
    ensures AfterAttempts(t.root, d, attempts).pointer.Some?
  {
    hide Sound, AllAfterState, ReceiptWritten, EitherWay, Framed, BundleKept;
    ReceiptBlocksRecovery(t, d, written, attempts);
  }
}
