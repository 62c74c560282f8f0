/** Apply's loop: at every stop the evidence is intact, the files are where the labels say,
    and the published changes are exactly the first ones. */
module ApplyProofs {
  import opened Wrappers
  import opened Records
  import opened Planning
  import opened Transactions
  import opened Engine
  import opened Invariants
  import opened StagingProofs

  /** The transaction is live and its journal file holds j; no receipt has been written. */
  ghost predicate Journaled(t: Txn, d: Disk, j: Journal) {
    && Live(t, d) && d.bundles[t.ID()].journal == Some(j) && d.bundles[t.ID()].receipt == None
  }

  /** Labels below i are VERIFIED; the others are as staged. */
  ghost predicate LabelledTo(t: Txn, j: Journal, i: nat) {
    && |j.actions| == t.Size() == |t.journal.actions| && i <= t.Size()
    && j == t.journal.(actions := j.actions)
    && (forall k :: 0 <= k < i ==> j.actions[k] == t.journal.actions[k].(state := Verified))
    && (forall k :: i <= k < t.Size() ==> j.actions[k] == t.journal.actions[k])
  }

  /** Paths below i are after; every other path is as staging left it. */
  ghost predicate PublishedTo(t: Txn, files: Files, i: nat) {
    && i <= t.Size()
    && (forall k :: 0 <= k < i ==> Look(files, t.plan.changes[k].path) == AfterState(t.plan.changes[k]))
    && (forall k :: i <= k < t.Size() ==>
          Get(files, t.plan.changes[k].path) == Get(StagedFiles(t.origin), t.plan.changes[k].path))
    && (forall q :: q !in ChangePaths(t.plan.changes) ==> Get(files, q) == Get(StagedFiles(t.origin), q))
  }

  /** What a label promises about its path. */
  ghost predicate LabelTrue(t: Txn, files: Files, k: nat, state: ActionState)
    requires k < t.Size()
  {
    var c := t.plan.changes[k];
    match state
    case Pending => Get(files, c.path) == Get(StagedFiles(t.origin), c.path)
    case InProgress => Look(files, c.path) in {BeforeState(c), AfterState(c)}
    case Applied => Look(files, c.path) == AfterState(c)
    case Verified => Look(files, c.path) == AfterState(c)
    case _ => false
  }

  ghost predicate LabelsTrue(t: Txn, d: Disk)
    requires Live(t, d)
  {
    var j := d.bundles[t.ID()].journal.value;
    forall k :: 0 <= k < t.Size() && k < |j.actions| ==> LabelTrue(t, d.files, k, j.actions[k].state)
  }

  lemma StagedEntry(files: Files, path: string)
    ensures path != NAMESPACE && path != RECOVERY_ROOT ==> Get(StagedFiles(files), path) == Get(files, path)
    ensures path in files && ProperTree(files) ==> Get(StagedFiles(files), path) == Get(files, path)
    ensures Get(StagedFiles(files), path) != Get(files, path) ==> Look(StagedFiles(files), path) == DirectoryState
  {
  }

  /** Staging leaves an action path before, or makes its directory, which is after. */
  lemma StagedChange(t: Txn, k: nat)
    requires Sound(t) && k < t.Size()
    ensures var c := t.plan.changes[k];
      && Look(StagedFiles(t.origin), c.path) in {BeforeState(c), AfterState(c)}
      && (Look(StagedFiles(t.origin), c.path) != BeforeState(c) ==> c.kind == CreateDir)
      && (Foreseen(t.origin, t.plan) ==> Get(StagedFiles(t.origin), c.path) == Get(t.origin, c.path))
      && (t.journal.actions[k].state == Verified ==> Look(StagedFiles(t.origin), c.path) == AfterState(c))
      && (t.journal.actions[k].state != Verified && (t.bootstrap || Foreseen(t.origin, t.plan)) ==>
            Look(StagedFiles(t.origin), c.path) == BeforeState(c))
  {
    hide ValidJournal, EncodablePlan;
    SoundFacts(t);
    var c := t.plan.changes[k];
    assert c in t.plan.changes && c.path in ChangePaths(t.plan.changes);
    assert SoundChange(t, c);
    StagedEntry(t.origin, c.path);
    SameLookUnlessStaged(t, c);
  }

  lemma SameLookUnlessStaged(t: Txn, c: Change)
    requires Look(t.origin, c.path) == BeforeState(c) && Publishable(c) && ProperTree(t.origin)
    requires c.kind == CreateFile ==> c.path != NAMESPACE && c.path != RECOVERY_ROOT
    ensures Look(StagedFiles(t.origin), c.path) == BeforeState(c)
         || (Look(StagedFiles(t.origin), c.path) == AfterState(c) && c.kind == CreateDir
             && (c.path == NAMESPACE || c.path == RECOVERY_ROOT))
  {
    match c.kind {
      case CreateDir =>
      case CreateFile =>
      case UpdateFile =>
      case DeleteFile =>
    }
  }

  lemma SetLabelKeepsEvidence(t: Txn, j: Journal, i: nat, state: ActionState)
    requires SameButLabels(t.journal, j) && i < |j.actions| && !state.UnknownState?
    ensures SameButLabels(t.journal, SetLabel(j, i, state))
  {
    var j' := SetLabel(j, i, state);
    assert j'.(actions := []) == j.(actions := []);
    forall k | 0 <= k < |t.journal.actions|
      ensures t.journal.actions[k].(state := Pending) == j'.actions[k].(state := Pending)
    {
      assert t.journal.actions[k].(state := Pending) == j.actions[k].(state := Pending);
    }
  }

  /** An allowed label move either is refused or rewrites the label and nothing else. */
  lemma TransitionRewritesLabel(t: Txn, m: Machine, j: Journal, i: nat, state: ActionState)
    requires Journaled(t, m.disk, j) && i < |j.actions| && j.transactionID == t.ID()
    requires CanTransition(j.actions[i].state, state)
    ensures var r := Transition(m, j, i, state);
      && (r.Go? <==> m.left > 0)
      && (r.Halt? ==> r == Halt(m, WriteRefused))
      && (r.Go? ==>
            && r.m.left == m.left - 1 && Journaled(t, r.m.disk, SetLabel(j, i, state))
            && r.m.disk.files == m.disk.files && r.m.disk.locked == m.disk.locked
            && r.m.disk.bundles - {t.ID()} == m.disk.bundles - {t.ID()})
  {
    hide SameButLabels, ValidReceiptFor, AfterState;
    SetLabelKeepsEvidence(t, j, i, state);
    var r := Transition(m, j, i, state);
    if r.Go? {
      forall k | 0 <= k < t.Size()
        ensures GoodBackup(t, r.m.disk.bundles[t.ID()], k)
      {
        assert GoodBackup(t, m.disk.bundles[t.ID()], k);
      }
    }
  }

  lemma LabelsTrueAt(t: Txn, d: Disk, j: Journal, i: nat, files: Files, state: ActionState)
    requires Sound(t) && LabelledTo(t, j, i) && i < t.Size() && PublishedTo(t, files, i)
    requires Live(t, d) && d.bundles[t.ID()].journal == Some(SetLabel(j, i, state))
    requires forall q :: q != t.plan.changes[i].path ==> Get(d.files, q) == Get(files, q)
    requires LabelTrue(t, d.files, i, state)
    ensures LabelsTrue(t, d)
  {
    SoundFacts(t);
    hide Sound, Live, AfterState, BeforeState, StagedFiles;
    forall k | 0 <= k < t.Size()
      ensures LabelTrue(t, d.files, k, SetLabel(j, i, state).actions[k].state)
    {
      var c := t.plan.changes[k];
      if k != i {
        assert c.path != t.plan.changes[i].path;
        SameEntrySameLook(d.files, files, c.path);
        StagedChange(t, k);
        if k > i {
          SameEntrySameLook(files, StagedFiles(t.origin), c.path);
          assert t.journal.actions[k].state in {Pending, Verified};
        }
      }
    }
  }

  lemma NextPublished(t: Txn, files: Files, files': Files, i: nat)
    requires DistinctPaths(t.plan.changes) && i < t.Size() && PublishedTo(t, files, i)
    requires forall q :: q != t.plan.changes[i].path ==> Get(files', q) == Get(files, q)
    requires Look(files', t.plan.changes[i].path) == AfterState(t.plan.changes[i])
    ensures PublishedTo(t, files', i + 1)
  {
    hide AfterState, StagedFiles, Look, Get;
    forall k | 0 <= k < i
      ensures Look(files', t.plan.changes[k].path) == AfterState(t.plan.changes[k])
    {
      assert t.plan.changes[k].path != t.plan.changes[i].path;
      SameEntrySameLook(files, files', t.plan.changes[k].path);
    }
    forall k | i < k < t.Size()
      ensures Get(files', t.plan.changes[k].path) == Get(StagedFiles(t.origin), t.plan.changes[k].path)
    {
      assert t.plan.changes[i].path != t.plan.changes[k].path;
    }
    assert t.plan.changes[i].path in ChangePaths(t.plan.changes) by {
      assert t.plan.changes[i] in t.plan.changes;
    }
  }

  lemma PathInPrefix(changes: seq<Change>, x: nat, i: nat)
    requires x < |changes| && i <= |changes|
    ensures x < i ==> changes[x].path in ChangePaths(changes[..i])
  {
    assert x < i ==> changes[..i][x] in changes[..i];
  }

  /** On a foreseen plan the inputs that are not yet published still hold before action i. */
  lemma InputsStillHold(t: Txn, files: Files, i: nat)
    requires Sound(t) && Foreseen(t.origin, t.plan) && i < t.Size() && PublishedTo(t, files, i)
    ensures InputsHold(files, t.plan.inputs, ChangePaths(t.plan.changes[..i]))
  {
    hide Sound, Foreseen, PublishedTo, InputHolds, ChangePaths;
    forall k | 0 <= k < |t.plan.inputs| && t.plan.inputs[k].path !in ChangePaths(t.plan.changes[..i])
      ensures InputHolds(files, t.plan.inputs[k])
    {
      InputStillHolds(t, files, i, k);
    }
  }

  lemma InputStillHolds(t: Txn, files: Files, i: nat, k: nat)
    requires Sound(t) && Foreseen(t.origin, t.plan) && i < t.Size() && PublishedTo(t, files, i)
    requires k < |t.plan.inputs| && t.plan.inputs[k].path !in ChangePaths(t.plan.changes[..i])
    ensures InputHolds(files, t.plan.inputs[k])
  {
    var q := t.plan.inputs[k].path;
    assert InputHolds(t.origin, t.plan.inputs[k]);
    assert Get(StagedFiles(t.origin), q) == Get(t.origin, q) by {
      hide Sound;
      StagedInput(t, k);
    }
    assert Get(files, q) == Get(StagedFiles(t.origin), q) by {
      hide Sound, StagedFiles;
      if q in ChangePaths(t.plan.changes) {
        var x := ChangePathIndex(t.plan.changes, q);
        PathInPrefix(t.plan.changes, x, i);
      }
    }
    hide Sound, StagedFiles, Foreseen, PublishedTo;
    SameEntrySameLook(files, t.origin, q);
  }

  lemma StagedInput(t: Txn, k: nat)
    requires Foreseen(t.origin, t.plan) && k < |t.plan.inputs|
    ensures Get(StagedFiles(t.origin), t.plan.inputs[k].path) == Get(t.origin, t.plan.inputs[k].path)
  {
  }

  /** The state of the disk when one turn of the loop ends, in whichever way. */
  ghost predicate TurnEnds(t: Txn, m: Machine, i: nat, r: Run) {
    && Live(t, r.m.disk) && LabelsTrue(t, r.m.disk)
    && r.m.disk.bundles - {t.ID()} == m.disk.bundles - {t.ID()}
    && (PublishedTo(t, r.m.disk.files, i) || PublishedTo(t, r.m.disk.files, i + 1))
    && (r.Go? ==> PublishedTo(t, r.m.disk.files, i + 1) && r.m.left >= m.left - 4)
  }

  /** The three writes after the publication of action i. */
  lemma FinishAction(t: Txn, m: Machine, j: Journal, i: nat, m1: Machine, m2: Machine)
    requires Sound(t) && LabelledTo(t, j, i) && i < t.Size() && j.transactionID == t.ID()
    requires PublishedTo(t, m.disk.files, i) && PublishedTo(t, m2.disk.files, i + 1)
    requires forall q :: q != t.plan.changes[i].path ==> Get(m2.disk.files, q) == Get(m.disk.files, q)
    requires Journaled(t, m2.disk, SetLabel(j, i, InProgress))
    requires m2.disk.bundles - {t.ID()} == m.disk.bundles - {t.ID()}
    requires Publish(m1, t.plan.changes[i]) == Go(m2) && m2.left + 2 == m.left
    ensures var r := PublishAndRecord(t.root, m1, t.plan.changes[i], j, i);
      && TurnEnds(t, m, i, r)
      && (r.Halt? ==> r.fault == WriteRefused && m.left < 4)
      && (r.Go? ==> Journaled(t, r.m.disk, SetLabel(j, i, Verified)))
  {
    hide Sound, Live, PublishedTo, AfterState, BeforeState, AfterHolds, StagedFiles, Publish;
    var c := t.plan.changes[i];
    NextHolds(t, m2.disk.files, i);
    var j1, j2 := SetLabel(j, i, InProgress), SetLabel(j, i, Applied);
    assert LabelTrue(t, m2.disk.files, i, InProgress) && LabelTrue(t, m2.disk.files, i, Applied)
        && LabelTrue(t, m2.disk.files, i, Verified) by {
      LabelsAtAfter(t, m2.disk.files, i);
    }
    LabelsTrueAt(t, m2.disk, j, i, m.disk.files, InProgress);
    TransitionRewritesLabel(t, m2, j1, i, Applied);
    assert SetLabel(j1, i, Applied) == j2;
    var r3 := Transition(m2, j1, i, Applied);
    if r3.Go? {
      LabelsTrueAt(t, r3.m.disk, j, i, m.disk.files, Applied);
      TransitionRewritesLabel(t, r3.m, j2, i, Verified);
      assert SetLabel(j2, i, Verified) == SetLabel(j, i, Verified);
      var r4 := Transition(r3.m, j2, i, Verified);
      if r4.Go? {
        LabelsTrueAt(t, r4.m.disk, j, i, m.disk.files, Verified);
      }
    }
  }

  lemma NextHolds(t: Txn, files: Files, i: nat)
    requires Sound(t) && i < t.Size() && PublishedTo(t, files, i + 1)
    ensures AfterHolds(t.root, files, t.plan.changes[i])
  {
    assert SoundChange(t, t.plan.changes[i]);
    hide Sound;
    AfterHoldsMeansAfter(t.root, files, t.plan.changes[i]);
  }

  lemma LabelsAtAfter(t: Txn, files: Files, i: nat)
    requires i < t.Size() && PublishedTo(t, files, i + 1)
    ensures LabelTrue(t, files, i, InProgress) && LabelTrue(t, files, i, Applied) && LabelTrue(t, files, i, Verified)
  {
  }

  /** Publication and its labels, once action i is IN_PROGRESS. */
  lemma RecordedActionKeeps(t: Txn, m: Machine, j: Journal, i: nat, m1: Machine)
    requires Sound(t) && LabelledTo(t, j, i) && i < t.Size() && j.transactionID == t.ID()
    requires PublishedTo(t, m.disk.files, i) && Journaled(t, m1.disk, SetLabel(j, i, InProgress))
    requires m1.disk.files == m.disk.files && m1.left + 1 == m.left
    requires m1.disk.bundles - {t.ID()} == m.disk.bundles - {t.ID()}
    ensures var r := PublishAndRecord(t.root, m1, t.plan.changes[i], j, i);
      && TurnEnds(t, m, i, r)
      && (r.Halt? ==> r.fault in {WriteRefused, TargetExists})
      && (Foreseen(t.origin, t.plan) && r.Halt? ==> r.fault == WriteRefused && m.left < 4)
      && (r.Go? ==> Journaled(t, r.m.disk, SetLabel(j, i, Verified)))
  {
    var c := t.plan.changes[i];
    assert SoundChange(t, c);
    StagedChange(t, i);
    SoundFacts(t);
    SameEntrySameLook(m.disk.files, StagedFiles(t.origin), c.path);
    assert LabelTrue(t, m1.disk.files, i, InProgress);
    hide Sound, Live, LabelledTo, PublishedTo, LabelsTrue, LabelTrue, AfterState, BeforeState,
      AfterHolds, StagedFiles, Foreseen, Look, Get, Publish, Published, Transition, Publishable, RestorableChange;
    LabelsTrueAt(t, m1.disk, j, i, m.disk.files, InProgress);
    if Look(m.disk.files, c.path) == BeforeState(c) {
      PublishMovesOnePath(m1, c);
      var r2 := Publish(m1, c);
      if r2.Go? {
        NextPublished(t, m.disk.files, r2.m.disk.files, i);
        FilesOnlyStayJournaled(t, m1.disk, SetLabel(j, i, InProgress), r2.m.disk.files);
        FinishAction(t, m, j, i, m1, r2.m);
      }
    } else {
      PublishRefusesExisting(m1, c);
    }
  }

  /** One turn of the loop. A refused write is the only thing that stops a foreseen plan. */
  lemma ActionKeeps(t: Txn, m: Machine, j: Journal, i: nat)
    requires Sound(t) && LabelledTo(t, j, i) && i < t.Size() && !Skipped(j, i, t.bootstrap)
    requires PublishedTo(t, m.disk.files, i) && Journaled(t, m.disk, j) && LabelsTrue(t, m.disk)
    ensures var r := PublishAction(t.root, m, t.plan, j, i);
      && TurnEnds(t, m, i, r)
      && (r.Halt? ==> r.fault in {WriteRefused, InputDrift, TargetExists})
      && (Foreseen(t.origin, t.plan) && r.Halt? ==> r.fault == WriteRefused && m.left < 4)
      && (r.Go? ==> Journaled(t, r.m.disk, SetLabel(j, i, Verified)))
  {
    hide Sound, Live, LabelledTo, PublishedTo, AfterState, BeforeState, LabelsTrue, InputsHold, Foreseen, TurnEnds, PublishAndRecord,
      SameButLabels, ChangePaths;
    if Foreseen(t.origin, t.plan) {
      InputsStillHold(t, m.disk.files, i);
    }
    NextIsPending(t, j, i);
    if InputsHold(m.disk.files, t.plan.inputs, ChangePaths(t.plan.changes[..i])) {
      TransitionRewritesLabel(t, m, j, i, InProgress);
      var r1 := Transition(m, j, i, InProgress);
      if r1.Go? {
        RecordedActionKeeps(t, m, j, i, r1.m);
      } else {
        StoppedTurn(t, m, i, r1);
      }
    } else {
      StoppedTurn(t, m, i, Halt(m, InputDrift));
    }
  }

  lemma NextIsPending(t: Txn, j: Journal, i: nat)
    requires Sound(t) && LabelledTo(t, j, i) && i < t.Size() && !Skipped(j, i, t.bootstrap)
    ensures |j.actions| == t.Size() && j.actions[i].state == Pending && SameButLabels(t.journal, j) && j.transactionID == t.ID()
    ensures t.root.resolves(t.plan.changes[i].path)
  {
    SoundFacts(t);
    assert SoundChange(t, t.plan.changes[i]);
  }

  /** A turn that stops before its publication has changed nothing. */
  lemma StoppedTurn(t: Txn, m: Machine, i: nat, r: Run)
    requires r.Halt? && r.m == m && Live(t, m.disk) && LabelsTrue(t, m.disk) && PublishedTo(t, m.disk.files, i)
    ensures TurnEnds(t, m, i, r)
  {
    hide Live, LabelsTrue, PublishedTo;
  }

  lemma FilesOnlyStayJournaled(t: Txn, d: Disk, j: Journal, files: Files)
    requires Journaled(t, d, j)
    ensures Journaled(t, d.(files := files), j)
  {
  }

  lemma PublishRefusesExisting(m: Machine, c: Change)
    requires Publishable(c) && Look(m.disk.files, c.path) == AfterState(c) != BeforeState(c)
    requires c.kind == CreateDir
    ensures Publish(m, c) == Halt(m, TargetExists)
  {
  }

  lemma LoopTurns(root: Root, m: Machine, plan: Plan, j: Journal, bootstrap: bool, i: nat)
    requires i < |plan.changes| == |j.actions|
    ensures PublishFrom(root, m, plan, j, bootstrap, i) ==
      if Skipped(j, i, bootstrap) then PublishFrom(root, m, plan, j, bootstrap, i + 1)
      else
        var r := PublishAction(root, m, plan, j, i);
        if r.Halt? then r else PublishFrom(root, r.m, plan, SetLabel(j, i, Verified), bootstrap, i + 1)
  {
    hide PublishAction;
  }

  lemma LoopIsOver(root: Root, m: Machine, plan: Plan, j: Journal, bootstrap: bool)
    requires |plan.changes| == |j.actions|
    ensures PublishFrom(root, m, plan, j, bootstrap, |plan.changes|) == Go(m)
  {
  }

  /** The loop from action i on: k is the number of changes published when it stops. */
  lemma {:induction false} LoopKeeps(t: Txn, m: Machine, j: Journal, i: nat) returns (k: nat)
    requires i <= t.Size() == |j.actions| && Sound(t) && LabelledTo(t, j, i)
    requires PublishedTo(t, m.disk.files, i) && Journaled(t, m.disk, j) && LabelsTrue(t, m.disk)
    ensures var r := PublishFrom(t.root, m, t.plan, j, t.bootstrap, i);
      && Live(t, r.m.disk) && LabelsTrue(t, r.m.disk)
      && r.m.disk.bundles - {t.ID()} == m.disk.bundles - {t.ID()}
      && i <= k && PublishedTo(t, r.m.disk.files, k)
      && (r.Halt? ==> r.fault in {WriteRefused, InputDrift, TargetExists})
      && (r.Go? ==> k == t.Size() && r.m.disk.bundles[t.ID()].receipt == None)
      && (Foreseen(t.origin, t.plan) ==>
            && (r.Halt? ==> r.fault == WriteRefused)
            && (m.left >= 4 * (t.Size() - i) ==> r.Go? && r.m.left >= m.left - 4 * (t.Size() - i)))
    decreases t.Size() - i
  {
    hide Sound, LabelledTo, PublishedTo, LabelsTrue, BundleKept, Foreseen, StagedFiles, PublishAction, PublishFrom, AfterState;
    if i < t.Size() {
      LoopTurns(t.root, m, t.plan, j, t.bootstrap, i);
    }
    if i == t.Size() {
      k := i;
      LoopIsOver(t.root, m, t.plan, j, t.bootstrap);
    } else if Skipped(j, i, t.bootstrap) {
      SkippedIsAfter(t, m.disk.files, j, i);
      SkipKeeps(t, m.disk.files, j, i);
      k := LoopKeeps(t, m, j, i + 1);
    } else {
      ActionKeeps(t, m, j, i);
      var r := PublishAction(t.root, m, t.plan, j, i);
      if r.Go? {
        NextLabelled(t, j, i);
        k := LoopKeeps(t, r.m, SetLabel(j, i, Verified), i + 1);
      } else {
        k := if PublishedTo(t, r.m.disk.files, i) then i else i + 1;
      }
    }
  }

  lemma LabelledFacts(t: Txn, j: Journal, i: nat)
    requires LabelledTo(t, j, i)
    ensures |j.actions| == t.Size() && i <= t.Size()
  {
  }

  lemma SkippedIsAfter(t: Txn, files: Files, j: Journal, i: nat)
    requires Sound(t) && LabelledTo(t, j, i) && i < t.Size() && PublishedTo(t, files, i) && Skipped(j, i, t.bootstrap)
    ensures Look(files, t.plan.changes[i].path) == AfterState(t.plan.changes[i])
  {
    StagedChange(t, i);
    hide Sound, Look, AfterState, StagedFiles;
    assert t.journal.actions[i].state == Verified;
    SameEntrySameLook(files, StagedFiles(t.origin), t.plan.changes[i].path);
  }

  lemma SkipKeeps(t: Txn, files: Files, j: Journal, i: nat)
    requires LabelledTo(t, j, i) && i < t.Size() && PublishedTo(t, files, i)
    requires j.actions[i].state == Verified
    requires Look(files, t.plan.changes[i].path) == AfterState(t.plan.changes[i])
    ensures LabelledTo(t, j, i + 1) && PublishedTo(t, files, i + 1)
  {
  }

  lemma NextLabelled(t: Txn, j: Journal, i: nat)
    requires LabelledTo(t, j, i) && i < t.Size()
    ensures LabelledTo(t, SetLabel(j, i, Verified), i + 1)
  {
  }

  lemma PublishedIsFramed(t: Txn, files: Files, k: nat)
    requires Sound(t) && PublishedTo(t, files, k)
    ensures EitherWay(t, files) && Framed(t, files)
    ensures k == t.Size() ==> AllAfterState(t, files)
    ensures Foreseen(t.origin, t.plan) ==> AtPrefix(t, files, k)
  {
    forall i | 0 <= i < t.Size()
      ensures Look(files, t.plan.changes[i].path) in {BeforeState(t.plan.changes[i]), AfterState(t.plan.changes[i])}
      ensures Foreseen(t.origin, t.plan) && i >= k ==> Look(files, t.plan.changes[i].path) == BeforeState(t.plan.changes[i])
    {
      StagedChange(t, i);
      assert SoundChange(t, t.plan.changes[i]);
      if i >= k {
        SameEntrySameLook(files, StagedFiles(t.origin), t.plan.changes[i].path);
      }
    }
  }

  lemma AllAfterPasses(t: Txn, files: Files)
    requires Sound(t) && AllAfterState(t, files)
    ensures AllAfterHold(t.root, files, t.plan.changes)
  {
    forall i | 0 <= i < t.Size()
      ensures AfterHolds(t.root, files, t.plan.changes[i])
    {
      assert SoundChange(t, t.plan.changes[i]);
      AfterHoldsMeansAfter(t.root, files, t.plan.changes[i]);
    }
  }

  /** The migration receipt is no target, so writing it moves no action path. */
  lemma ReceiptMovesNoTarget(t: Txn, files: Files, node: Node)
    requires Sound(t)
    ensures var files' := files[t.plan.metadata.migrationReceiptPath := node];
      && (forall i :: 0 <= i < t.Size() ==> Get(files', t.plan.changes[i].path) == Get(files, t.plan.changes[i].path))
      && (Framed(t, files) ==> Framed(t, files'))
      && (AllAfterState(t, files) ==> AllAfterState(t, files'))
      && (EitherWay(t, files) ==> EitherWay(t, files'))
  {
    var files' := files[t.plan.metadata.migrationReceiptPath := node];
    forall i | 0 <= i < t.Size()
      ensures Get(files', t.plan.changes[i].path) == Get(files, t.plan.changes[i].path)
      ensures Look(files', t.plan.changes[i].path) == Look(files, t.plan.changes[i].path)
    {
      assert t.plan.changes[i] in t.plan.changes;
      SameEntrySameLook(files, files', t.plan.changes[i].path);
    }
  }

  /** Writing the migration receipt, or refusing to, changes one path outside the plan at most. */
  lemma MigrationReceiptKeeps(t: Txn, m: Machine, changes: seq<Change>, at: int)
    requires Sound(t)
    ensures var r := WriteMigrationReceipt(t.root, m, t.journal.planID, t.plan.metadata, changes, at);
      && r.m.disk == m.disk.(files := r.m.disk.files)
      && (Framed(t, m.disk.files) ==> Framed(t, r.m.disk.files))
      && (AllAfterState(t, m.disk.files) ==> AllAfterState(t, r.m.disk.files))
      && (EitherWay(t, m.disk.files) ==> EitherWay(t, r.m.disk.files))
      && (t.plan.metadata.migrationReceiptPath == "" ==> r == Go(m))
  {
    hide Sound, Framed, AllAfterState, EitherWay, ReceiptFor;
    var receipt := ReceiptFor(t.journal.planID, t.plan.metadata, changes, at);
    ReceiptMovesNoTarget(t, m.disk.files, File(t.root.encodeReceipt(receipt), PRIVATE_FILE_MODE));
  }

  /** The receipt lists hashes of files under their paths. */
  lemma {:induction false} HashesAreHashes(changes: seq<Change>)
    requires AllRestorable(changes)
    ensures forall p :: p in ReceiptHashes(changes) ==> p != "" && ReceiptHashes(changes)[p].Sha256?
  {
    if changes != [] {
      var rest, c := changes[..|changes| - 1], changes[|changes| - 1];
      assert AllRestorable(rest) && c in changes;
      HashesAreHashes(rest);
      assert RestorableChange(c);
    }
  }

  lemma SoundHashes(t: Txn)
    requires Sound(t)
    ensures forall p :: p in ReceiptHashes(t.plan.changes) ==> p != "" && ReceiptHashes(t.plan.changes)[p].Sha256?
  {
    assert AllRestorable(t.plan.changes);
    hide Sound;
    HashesAreHashes(t.plan.changes);
  }

  /** Receipt and pointer removal: the files stay wholly after, and the evidence stays until the end. */
  lemma CompletionKeeps(t: Txn, m: Machine, finished: int)
    requires Sound(t) && Live(t, m.disk) && AllAfterState(t, m.disk.files) && Framed(t, m.disk.files)
    requires m.disk.bundles[t.ID()].receipt == None
    ensures var r := Complete(t.root, m, t.plan, t.journal, finished);
      && AllAfterState(t, r.m.disk.files) && Framed(t, r.m.disk.files)
      && (r.Halt? ==> Live(t, r.m.disk))
      && (r.Go? ==> r.m.disk.pointer == None)
      && r.m.disk.bundles - {t.ID()} == m.disk.bundles - {t.ID()}
      && (t.plan.metadata.migrationReceiptPath == "" ==> r.m.disk.files == m.disk.files)
      && (t.plan.metadata.migrationReceiptPath == "" && m.left >= 2 ==> r.Go?)
  {
    MigrationReceiptKeeps(t, m, t.plan.changes, finished);
    var r1 := WriteMigrationReceipt(t.root, m, t.journal.planID, t.plan.metadata, t.plan.changes, finished);
    assert t.journal.planID == t.plan.id;
    SoundHashes(t);
    hide Sound, AllAfterState, Framed, WriteMigrationReceipt, BundleKept, ReceiptHashes;
    if r1.Go? && r1.m.left > 0 {
      var receipt := CompletionReceipt(t.journal, finished, Completed, ReceiptHashes(t.plan.changes));
      ReceiptKeepsEvidence(t, r1.m.disk, receipt);
    }
  }

  lemma ReceiptKeepsEvidence(t: Txn, d: Disk, receipt: Receipt)
    requires Live(t, d) && ValidReceiptFor(receipt, t.journal)
    ensures Live(t, WithReceipt(d, t.ID(), receipt))
    ensures WithReceipt(d, t.ID(), receipt).bundles - {t.ID()} == d.bundles - {t.ID()}
  {
    var b, b' := d.bundles[t.ID()], Stored(d, t.ID()).(receipt := Some(receipt));
    forall i | 0 <= i < t.Size()
      ensures GoodBackup(t, b', i)
    {
      assert GoodBackup(t, b, i);
    }
  }

  /** The transaction Apply starts on these files. */
  function TxnOf(root: Root, files: Files, plan: Plan, started: int): Txn {
    var bootstrap := NAMESPACE !in files;
    Txn(root, plan, StagedJournal(root, files, plan, started, bootstrap), files, bootstrap)
  }

  lemma StagedChangeIsSound(t: Txn, i: nat, b: BundleDirectory)
    requires t.bootstrap == (NAMESPACE !in t.origin) && ProperTree(t.origin) && WellFormed(t.plan)
    requires EncodablePlan(t.plan)
    requires AllBeforeHold(t.root, t.origin, t.plan.changes) && i < t.Size()
    requires BackedUp(t.root, if t.bootstrap then t.origin else StagedFiles(t.origin), t.plan.changes, 0, b)
    ensures SoundChange(t, t.plan.changes[i]) && GoodBackup(t, b, i)
  {
    var c := t.plan.changes[i];
    assert c in t.plan.changes;
    assert BeforeHolds(t.root, t.origin, c);
    if NeedsBackup(c) {
      var files := if t.bootstrap then t.origin else StagedFiles(t.origin);
      assert FitsRecord(files, c.path) && HashBytes(files[c.path].content) == c.before;
      StagedEntry(t.origin, c.path);
      assert Get(files, c.path) == Get(t.origin, c.path);
      assert Get(t.origin, c.path).Some?;
    }
    assert Publishable(c);
    BeforeHoldsMeansBefore(t.root, t.origin, c);
  }

  /** When staging goes through, the transaction is sound, live, and nothing is published yet. */
  lemma StagedIsSound(t: Txn, started: int, d: Disk)
    requires t == TxnOf(t.root, t.origin, t.plan, started)
    requires ProperTree(t.origin) && WellFormed(t.plan) && t.plan.workspace == t.root.path && t.Size() > 0
    requires InputsHold(t.origin, t.plan.inputs, {}) && AllBeforeHold(t.root, t.origin, t.plan.changes)
    requires EncodablePlan(t.plan) && ValidJournal(t.journal)
    requires d.pointer == Some(PointerOf(t.journal)) && d.files == StagedFiles(t.origin) && t.ID() in d.bundles
    requires FreshBundle(t.root, if t.bootstrap then t.origin else StagedFiles(t.origin), t.plan, t.journal, d.bundles[t.ID()])
    ensures Sound(t) && Journaled(t, d, t.journal) && LabelledTo(t, t.journal, 0)
    ensures PublishedTo(t, d.files, 0) && LabelsTrue(t, d)
  {
    hide InputsHold, AllBeforeHold, EncodablePlan, ValidJournal, WellFormed, ProperTree, SoundChange, GoodBackup,
      BackedUp, StagedFiles;
    var b := d.bundles[t.ID()];
    forall i | 0 <= i < t.Size()
      ensures SoundChange(t, t.plan.changes[i]) && GoodBackup(t, b, i)
    {
      StagedChangeIsSound(t, i, b);
    }
    assert t.journal == StagedJournal(t.root, t.origin, t.plan, started, t.bootstrap);
    assert Sound(t);
    SoundFacts(t);
    assert SameButLabels(t.journal, t.journal);
    forall k | 0 <= k < t.Size()
      ensures LabelTrue(t, d.files, k, t.journal.actions[k].state)
    {
      StagedChange(t, k);
      assert t.journal.actions[k].state in {Pending, Verified};
    }
  }

  /** How a call of Apply can leave the disk. */
  ghost predicate ApplyOutcome(t: Txn, d: Disk, r: Run) {
    && r.m.disk.bundles - {t.ID()} == d.bundles - {t.ID()}
    && if r.m.disk.pointer.Some? then
         && Sound(t) && r.Halt? && Holds(t, r.m.disk) && LabelsTrue(t, r.m.disk)
         && (Foreseen(t.origin, t.plan) ==> exists k :: AtPrefix(t, r.m.disk.files, k))
       else if r.Halt? then r.m.disk.files in {t.origin, StagedFiles(t.origin)}
       else if t.plan.changes == [] then r.m.disk.files == t.origin
       else Sound(t) && AllAfterState(t, r.m.disk.files) && Framed(t, r.m.disk.files)
  }

  lemma LoopOutcome(t: Txn, m: Machine, m1: Machine, finished: int)
    requires |t.journal.actions| == t.Size() > 0 && Sound(t) && Journaled(t, m1.disk, t.journal)
    requires LabelledTo(t, t.journal, 0)
    requires PublishedTo(t, m1.disk.files, 0) && LabelsTrue(t, m1.disk)
    requires m1.disk.bundles - {t.ID()} == m.disk.bundles - {t.ID()}
    ensures var r2 := PublishFrom(t.root, m1, t.plan, t.journal, t.bootstrap, 0);
      && (r2.Halt? ==> ApplyOutcome(t, m.disk, r2))
      && (r2.Go? ==> AllAfterHold(t.root, r2.m.disk.files, t.plan.changes)
                     && ApplyOutcome(t, m.disk, Complete(t.root, r2.m, t.plan, t.journal, finished)))
  {
    hide Sound, WellFormed, AllAfterState, AllAfterHold, PublishedTo, EitherWay, Framed, AtPrefix, LabelsTrue,
      BundleKept,
      LabelledTo, StagedFiles, Complete, PublishFrom, Foreseen;
    var k := LoopKeeps(t, m1, t.journal, 0);
    var r2 := PublishFrom(t.root, m1, t.plan, t.journal, t.bootstrap, 0);
    PublishedIsFramed(t, r2.m.disk.files, k);
    if r2.Go? {
      AllAfterPasses(t, r2.m.disk.files);
      CompletionKeeps(t, r2.m, finished);
      var r := Complete(t.root, r2.m, t.plan, t.journal, finished);
      AllAfterIsPrefix(t, r.m.disk.files);
      if r.Halt? {
        LabelsSurviveCompletion(t, r2.m, finished);
      }
    }
  }

  lemma AllAfterIsPrefix(t: Txn, files: Files)
    requires AllAfterState(t, files)
    ensures AtPrefix(t, files, t.Size()) && EitherWay(t, files)
  {
  }

  /** Completion rewrites no label. */
  lemma LabelsSurviveCompletion(t: Txn, m: Machine, finished: int)
    requires Sound(t) && Live(t, m.disk) && LabelsTrue(t, m.disk)
    requires AllAfterState(t, m.disk.files) && m.disk.bundles[t.ID()].receipt == None
    requires Complete(t.root, m, t.plan, t.journal, finished).Halt?
    requires Live(t, Complete(t.root, m, t.plan, t.journal, finished).m.disk)
    ensures LabelsTrue(t, Complete(t.root, m, t.plan, t.journal, finished).m.disk)
  {
    hide Sound, AllAfterState, Framed, EitherWay, BundleKept, ReceiptFor, ReceiptHashes, Look, AfterState, BeforeState,
      StagedFiles;
    var r := Complete(t.root, m, t.plan, t.journal, finished);
    var receipt := ReceiptFor(t.journal.planID, t.plan.metadata, t.plan.changes, finished);
    ReceiptMovesNoTarget(t, m.disk.files, File(t.root.encodeReceipt(receipt), PRIVATE_FILE_MODE));
    forall k | 0 <= k < t.Size()
      ensures Get(r.m.disk.files, t.plan.changes[k].path) == Get(m.disk.files, t.plan.changes[k].path)
      ensures Look(r.m.disk.files, t.plan.changes[k].path) == Look(m.disk.files, t.plan.changes[k].path)
    {
      SameEntrySameLook(r.m.disk.files, m.disk.files, t.plan.changes[k].path);
    }
    assert r.m.disk.bundles[t.ID()].journal == m.disk.bundles[t.ID()].journal;
  }

  lemma BodyOutcome(t: Txn, m: Machine, started: int, finished: int)
    requires t == TxnOf(t.root, m.disk.files, t.plan, started)
    requires ProperTree(t.origin) && WellFormed(t.plan) && t.plan.workspace == t.root.path && m.disk.pointer.None?
    ensures ApplyOutcome(t, m.disk, ApplyBody(t.root, m, t.plan, started, finished))
  {
    hide InputsHold, AllBeforeHold, EncodablePlan, ValidJournal, WellFormed, ProperTree, StagedFiles, FreshBundle,
      Sound, Complete, PublishFrom, Stage, Foreseen, LabelsTrue, Journaled, LabelledTo, PublishedTo, StagedJournal,
      AllAfterHold, AllAfterState, Framed, Holds, AtPrefix;
    if InputsHold(m.disk.files, t.plan.inputs, {}) && AllBeforeHold(t.root, m.disk.files, t.plan.changes) && t.plan.changes != [] {
      StagingIsAllOrNothing(t.root, m, t.plan, t.journal, t.bootstrap);
      var r1 := Stage(t.root, m, t.plan, t.journal, t.bootstrap);
      if r1.Go? {
        StagedIsSound(t, started, r1.m.disk);
        LabelledFacts(t, t.journal, 0);
        LoopOutcome(t, m, r1.m, finished);
      }
    }
  }

  lemma LockChangesNothingElse(t: Txn, d: Disk, r: Run)
    requires ApplyOutcome(t, d, r)
    ensures ApplyOutcome(t, d.(locked := false), Unlocked(r))
  {
    var r' := Unlocked(r);
    if r.m.disk.pointer.Some? {
      LiveIgnoresLock(t, r.m.disk, false);
    }
  }

  lemma LiveIgnoresLock(t: Txn, d: Disk, locked: bool)
    requires Live(t, d)
    ensures Live(t, d.(locked := locked))
    ensures LabelsTrue(t, d) ==> LabelsTrue(t, d.(locked := locked))
  {
  }

  /** Wherever Apply stops: either no pointer is out and no target has changed, or a live pointer leads to a
      sound transaction whose evidence is complete, whose labels are true and whose published changes
      are the first ones in order; or it finished with every change in place. */
  lemma ApplyStopsSafely(root: Root, m: Machine, plan: Plan, approved: PlanID, started: int, finished: int)
    requires WellFormed(plan) && ProperTree(m.disk.files) && m.disk.pointer.None?
    ensures var r := ApplyRun(root, m, plan, approved, started, finished);
      var t := TxnOf(root, m.disk.files, plan, started);
      ApplyOutcome(t, m.disk, r)
  {
    hide WellFormed, ProperTree, ApplyBody, StagedFiles, Sound, Foreseen, Holds, AllAfterState, Framed, StagedJournal;
    var t := TxnOf(root, m.disk.files, plan, started);
    if plan.workspace == root.path {
      if NAMESPACE in m.disk.files {
        var r1 := AcquireLock(m, plan.operation == "purge-abort");
        if r1.Go? {
          BodyOutcome(t, r1.m, started, finished);
          LockChangesNothingElse(t, r1.m.disk, ApplyBody(root, r1.m, plan, started, finished));
        }
      } else {
        BodyOutcome(t, m, started, finished);
      }
    }
  }
}
