/** What makes a plan ready for Apply: a canonical form, records that can be written, a journal that is valid. */
module Readiness {
  import opened Records
  import opened Sorting
  import opened Planning
  import opened Transactions
  import opened Engine
  import opened Invariants

  /** Each change has a later sequence than the one before it. */
  predicate Ascending(changes: seq<Change>) {
    && changes != [] && changes[|changes| - 1].sequence != 0
    && forall i, k :: 0 <= i < k < |changes| ==> changes[i].sequence < changes[k].sequence
  }

  lemma AscendingIsOrdered(changes: seq<Change>)
    requires Ascending(changes)
    ensures ExplicitSequence(changes) && Canonically(changes) == changes && DistinctKeys(changes)
  {
    assert changes[|changes| - 1] in changes;
    assert ExplicitSequence(changes);
    AscendingHasDistinctKeys(changes);
    hide DistinctKeys, ExplicitSequence, Sort;
    SortFixesSorted(changes, BySequence);
  }

  lemma AscendingHasDistinctKeys(changes: seq<Change>)
    requires Ascending(changes) && ExplicitSequence(changes)
    ensures DistinctKeys(changes)
  {
    hide ExplicitSequence;
    forall a, b | a in changes && b in changes && a.sequence == b.sequence
      ensures a == b
    {
      var i :| 0 <= i < |changes| && changes[i] == a;
      var k :| 0 <= k < |changes| && changes[k] == b;
    }
  }

  /** A plan given its changes in ascending sequence keeps them as they are. */
  lemma AscendingPlan(operation: string, workspace: string, changes: seq<Change>, inputs: seq<Input>, metadata: Metadata)
    requires Ascending(changes)
    ensures var p := NewPlan(operation, workspace, changes, inputs, metadata);
      && Canonical(p) && p.changes == changes && (forall k :: k in p.inputs <==> k in inputs)
      && p.metadata == metadata && p.workspace == workspace && p.operation == operation && p.id != NoPlanID
      && DistinctKeys(p.changes)
  {
    hide Canonical, DistinctKeys, Sort, HashedAll, Canonically;
    CanonicalIsIdempotent(operation, workspace, changes, inputs, metadata);
    AscendingIsOrdered(changes);
    SameMultisetSameElements(inputs, Sort(inputs, ByInputPath));
  }

  /** The journal staging writes is valid when every change is and every backup has a source. */
  lemma StagedJournalIsValid(root: Root, files: Files, plan: Plan, started: int, bootstrap: bool)
    requires plan.id != NoPlanID && plan.operation != "" && |root.path| > 0 && root.path[0] == '/'
    requires AllRestorable(plan.changes) && DistinctPaths(plan.changes)
    requires forall c :: c in plan.changes && NeedsBackup(c) ==>
      c.before.Sha256? && c.path in files && files[c.path].mode != 0
    ensures ValidJournal(StagedJournal(root, files, plan, started, bootstrap))
  {
    var j := StagedJournal(root, files, plan, started, bootstrap);
    forall i | 0 <= i < |j.actions|
      ensures ValidAction(j.actions[i], i) && j.actions[i].change == plan.changes[i]
    {
      assert plan.changes[i] in plan.changes;
      assert j.actions[i] == StagedAction(files, plan.changes[i], i, bootstrap);
      hide RestorableChange;
    }
    hide ValidAction, AllRestorable;
  }

  lemma CanonicalIsEncodable(p: Plan)
    requires Canonical(p) && p.operation != "" && p.id != NoPlanID && AllRestorable(p.changes)
    requires forall c :: c in p.changes ==> |c.content| <= MAX_RECORD_BYTES
    ensures EncodablePlan(p)
  {
    RestoreUndoesPersisted(p);
    hide Canonical, Restorable, AllRestorable;
  }
}
