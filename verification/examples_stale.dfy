/** The transaction of CutExamples, settled by a recovery plan that is out of date. */
module StaleExamples {
  import opened Records
  import opened Transactions
  import opened Engine
  import opened Invariants
  import opened ApplyProofs
  import opened RecoveryProofs
  import opened RedoUndoProofs
  import opened RecoveryOutcomes
  import opened Runs
  import opened StaleRecoveries
  import opened CutExamples

  const MODE := PRIVATE_FILE_MODE

  /** A continue with two writes, the lock and one publication. */
  const SHORT := Attempt("c", "r", Continue, 2, 0)

  lemma StagedIsUnfinished()
    ensures var t, d := CutTxn(MODE), StagedTwoSteps(MODE);
      && Sound(t) && Holds(t, d) && AtPrefix(t, d.files, 0) && !d.locked && t.Size() == 2 && t.plan.changes == STEPS
  {
    hide FilesWith, TwoSteps, Sound, PublishedTo, EitherWay, Framed, AtPrefix, CutExamples.Evidence, Live, StagedJournal, StagedFiles;
    var t, d := CutTxn(MODE), StagedTwoSteps(MODE);
    StagedTransaction(MODE);
    JournalFacts(MODE);
    TwoStepsPlan();
    PublishedIsFramed(t, d.files, 0);
    assert Foreseen(t.origin, t.plan) by {
      FilesFacts(MODE);
    }
  }

  lemma NothingMade(t: Txn, files: Files)
    requires AtPrefix(t, files, 0)
    ensures NoDirectoryMade(t, files)
  {
  }

  lemma StepsAreLoud(t: Txn)
    requires t.plan.changes == STEPS
    ensures Loud(t)
  {
  }

  /** At the staged transaction both ways are offered. */
  lemma BothOffered()
    ensures var t, d := CutTxn(MODE), StagedTwoSteps(MODE);
      Live(t, d) && InputsResolve(t.root, t.plan) && ClassificationAt(t, d) == BothAvailable
  {
    hide Sound, Holds, AtPrefix, AllAfterState, RecoverySafe, CutTxn, StagedTwoSteps, ClassificationAt, Look, BeforeState, AfterState;
    var t, d := CutTxn(MODE), StagedTwoSteps(MODE);
    StagedIsUnfinished();
    CutIsSafe(MODE);
    HoldsIsLive(t, d);
    ClassifiedByPlan(t, d);
    StepsAreLoud(t);
    NoneAfter(t, d.files);
    NoInputs();
  }

  lemma NoInputs()
    ensures InputsResolve(CutTxn(MODE).root, CutTxn(MODE).plan)
  {
    hide TwoSteps;
    TwoStepsPlan();
  }

  lemma NoneAfter(t: Txn, files: Files)
    requires AtPrefix(t, files, 0) && Loud(t) && t.Size() > 0
    ensures !AllAfterState(t, files)
  {
    assert t.plan.changes[0] in t.plan.changes;
  }

  lemma ContinueList(t: Txn, j: Journal, o: Observation, files: Files)
    requires Sound(t) && t.plan.changes == STEPS && |j.actions| == 2 && EitherWay(t, files) && Seen(t, j, o, files, 0, 2)
    requires AtPrefix(t, files, 0)
    ensures RedoFrom(j, o, 0) == [STEPS[0]] + ([STEPS[1]] + RedoFrom(j, o, 2))
    ensures Publishable(STEPS[0]) && t.root.resolves(MADE) && Publishable(STEPS[1]) && t.root.resolves(KEPT)
  {
    hide Sound, EitherWay, Publishable, MatchesBefore, MatchesAfter, LiveState, RedoFrom, Look;
    StepsAreLoud(t);
    assert forall c :: c in STEPS <==> c == STEPS[0] || c == STEPS[1];
    RedoHead(t, j, o, files, 0);
    SeenFrom(t, j, o, files);
    RedoHead(t, j, o, files, 1);
  }

  lemma SeenFrom(t: Txn, j: Journal, o: Observation, files: Files)
    requires |j.actions| == t.Size() == 2 && Seen(t, j, o, files, 0, 2)
    ensures Seen(t, j, o, files, 1, 2)
  {
    hide Look, BeforeState, AfterState, MatchesBefore, MatchesAfter, LiveState;
  }

  /** With one write the list gets as far as the directory. */
  lemma ListIsCut(root: Root, m: Machine, rest: seq<Change>)
    requires m.left == 1 && Publishable(STEPS[0]) && root.resolves(MADE) && Publishable(STEPS[1]) && root.resolves(KEPT)
    requires Look(m.disk.files, MADE) == BeforeState(STEPS[0]) && Look(m.disk.files, KEPT) == BeforeState(STEPS[1])
    ensures var files := Published(m.disk.files, STEPS[0]);
      && PublishList(root, m, [STEPS[0]] + ([STEPS[1]] + rest)) == Halt(Machine(m.disk.(files := files), 0), WriteRefused)
      && Look(files, MADE) == AfterState(STEPS[0]) && Look(files, KEPT) == BeforeState(STEPS[1])
  {
    hide Publishable, Published, PublishList, Look, BeforeState, AfterState;
    PublishHead(root, m, STEPS[0], [STEPS[1]] + rest);
    var m' := Machine(m.disk.(files := Published(m.disk.files, STEPS[0])), 0);
    StepPaths();
    assert MADE[6] == 'm' && KEPT[6] == 'k';
    SameEntrySameLook(m.disk.files, m'.disk.files, KEPT);
    PublishHead(root, m', STEPS[1], rest);
  }

  /** The short continue leaves the transaction live, with the directory made. */
  lemma ShortContinue()
    ensures var t, d := CutTxn(MODE), StagedTwoSteps(MODE);
      var found := AfterAttempts(t.root, d, [SHORT]);
      && found == Attempted(t.root, d, SHORT).m.disk && found.pointer.Some? && AtPrefix(t, found.files, 1)
  {
    hide Sound, EitherWay, Framed, BundleKept, CutTxn, StagedTwoSteps, ClassificationAt, RecoveryBody, Attempted, Look, Publishable,
      BeforeState, AfterState, Published, BundleFor, InputsResolve, ObservationAt;
    var t, d := CutTxn(MODE), StagedTwoSteps(MODE);
    StagedIsUnfinished();
    BothOffered();
    var plan := AttemptUnfolds(t, d, SHORT, 0, true);
    var m := Machine(d.(locked := true), 1);
    SidesAreSeen(t, d);
    ContinueList(t, JournalAt(t, d), ObservationAt(t, d), d.files);
    ListIsCut(t.root, m, RedoFrom(JournalAt(t, d), ObservationAt(t, d), 2));
    ContinuePassesBefore(t, d);
    assert RecoveryBody(t.root, m, plan, LoadedBundle(t, d), 0) == PublishList(t.root, m, plan.changes) by {
      CutBody(t.root, m, plan, LoadedBundle(t, d));
    }
    assert [SHORT][1..] == [];
  }

  lemma CutBody(root: Root, m: Machine, plan: Plan, bundle: Bundle)
    requires AllBeforeHold(root, m.disk.files, plan.changes) && PublishList(root, m, plan.changes).Halt?
    ensures RecoveryBody(root, m, plan, bundle, 0) == PublishList(root, m, plan.changes)
  {
    hide AllBeforeHold, PublishList, FinishRecovery;
  }

  /** A rollback planned while nothing was published, and applied after a continue was cut off behind the first
      publication, is accepted and reported as done: the live pointer is gone, the directory stays and the file is old. */
  lemma SplitTransactionExists()
    ensures var t, d := CutTxn(MODE), StagedTwoSteps(MODE);
      var plan, found := PlanRecovery(t.root, d, "c", "r", Rollback), Attempted(t.root, d, SHORT).m.disk;
      && plan.Ok? && found.pointer.Some?
      && var r := RecoveryRun(t.root, Machine(found, 6), plan.value, plan.value.id, 0);
         r.Go? && r.m.disk.pointer.None? && !AllBeforeState(t, r.m.disk.files) && !AllAfterState(t, r.m.disk.files)
  {
    hide Sound, Holds, AtPrefix, CutTxn, StagedTwoSteps, ClassificationAt, PlanIs, PlanRecovery, RecoveryRun, Attempted, Loud,
      NoDirectoryMade, InputsResolve, AfterAttempts, Split;
    var t, d := CutTxn(MODE), StagedTwoSteps(MODE);
    StagedIsUnfinished();
    HoldsIsLive(t, d);
    BothOffered();
    ShortContinue();
    StepsAreLoud(t);
    NothingMade(t, d.files);
    RecoveryIsPlanned(t, d, "c", "r", Rollback);
    var plan := PlanRecovery(t.root, d, "c", "r", Rollback).value;
    StalePlanIsAccepted(t, d, [SHORT], 0, 1, plan, Rollback, 6, 0);
    var found := Attempted(t.root, d, SHORT).m.disk;
    SplitIsOnNeitherSide(t, RecoveryRun(t.root, Machine(found, 6), plan, plan.id, 0).m.disk.files);
  }

  lemma SplitIsOnNeitherSide(t: Txn, files: Files)
    requires t.plan.changes == STEPS && Split(t, files, Rollback, 0, 1) && Loud(t)
    ensures !AllBeforeState(t, files) && !AllAfterState(t, files)
  {
    hide Look, BeforeState, AfterState;
    assert t.plan.changes[0] in t.plan.changes && t.plan.changes[1] in t.plan.changes;
  }
}
