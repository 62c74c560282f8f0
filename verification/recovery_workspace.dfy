/** Recovery as it runs: the loops that gather evidence and publish the recovery plan, each proved to do what
    the engine functions say. */
module RecoveryWorkspaces {
  import opened Wrappers
  import opened Records
  import opened Planning
  import opened Transactions
  import opened Engine
  import opened Workspaces

  /** The observation loop over the actions. */
  method ObserveActions(w: Workspace, j: Journal, copies: map<nat, Node>)
    returns (ok: bool, paths: map<string, PathState>, backups: map<nat, BackupState>)
    ensures ok <==> forall a :: a in j.actions ==> w.root.resolves(a.change.path)
    ensures ok ==> paths == map p | p in ActionPaths(j.actions) :: Observe(w.files, p)
    ensures ok ==> backups == map i: nat | i < |j.actions| && j.actions[i].backup.Some? :: ObserveBackup(copies, j.actions[i])
  {
    hide Observe, ObserveBackup, ActionPaths;
    paths, backups := map[], map[];
    NoPaths(j.actions);
    for index := 0 to |j.actions|
      invariant forall i :: 0 <= i < index ==> w.root.resolves(j.actions[i].change.path)
      invariant paths.Keys == ActionPaths(j.actions[..index])
      invariant forall p :: p in paths ==> paths[p] == Observe(w.files, p)
      invariant forall i: nat :: i in backups <==> i < index && j.actions[i].backup.Some?
      invariant forall i: nat :: i in backups ==> backups[i] == ObserveBackup(copies, j.actions[i])
    {
      var a := j.actions[index];
      PathsOfNext(j.actions, index);
      if !w.root.resolves(a.change.path) {
        assert a in j.actions;
        return false, paths, backups;
      }
      paths := paths[a.change.path := Observe(w.files, a.change.path)];
      if a.backup.Some? {
        backups := backups[index := ObserveBackup(copies, a)];
      }
    }
    assert j.actions[..|j.actions|] == j.actions;
    return true, paths, backups;
  }

  lemma NoPaths(actions: seq<Action>)
    ensures ActionPaths(actions[..0]) == {}
  {
  }

  /** The observation loop over the inputs no action changes. */
  method ObserveInputs(w: Workspace, inputs: seq<Input>, paths: set<string>)
    returns (ok: bool, observed: map<string, Digest>)
    ensures ok <==> forall k :: k in inputs && k.path !in paths ==> w.root.resolves(k.path)
    ensures ok ==> observed == map k | k in inputs && k.path !in paths :: k.path := ObserveInput(w.files, k.path)
  {
    hide ObserveInput;
    observed := map[];
    for index := 0 to |inputs|
      invariant forall i :: 0 <= i < index && inputs[i].path !in paths ==> w.root.resolves(inputs[i].path)
      invariant forall p :: p in observed <==> exists i :: 0 <= i < index && inputs[i].path == p && p !in paths
      invariant forall p :: p in observed ==> observed[p] == ObserveInput(w.files, p)
    {
      var input := inputs[index];
      if input.path !in paths {
        if !w.root.resolves(input.path) {
          assert input in inputs;
          return false, observed;
        }
        observed := observed[input.path := ObserveInput(w.files, input.path)];
      }
    }
    forall p
      ensures p in observed <==> exists k :: k in inputs && k.path !in paths && k.path == p
    {
      if p in observed {
        var i :| 0 <= i < |inputs| && inputs[i].path == p && p !in paths;
        assert inputs[i] in inputs;
      }
    }
    return true, observed;
  }

  method LoadTransactionSnapshot(w: Workspace) returns (r: Result<Snapshot, Fault>)
    ensures r == LoadSnapshot(w.root, w.OnDisk())
  {
    hide ValidBundle, ValidPointer, ObserveBackup, Observe, ObserveInput;
    if w.pointer.None? || !ValidPointer(w.pointer.value) || w.pointer.value.workspace != w.root.path {
      return Err(NoEvidence);
    }
    var stored := Stored(w.OnDisk(), w.pointer.value.transactionID);
    if stored.journal.None? || stored.plan.None? {
      return Err(NoEvidence);
    }
    var bundle := Bundle(w.pointer.value, stored.journal.value, stored.plan.value, stored.receipt);
    var valid := ValidateBundle(bundle);
    if !valid {
      return Err(NoEvidence);
    }
    var actionsOk, paths, backups := ObserveActions(w, bundle.journal, stored.backups);
    if !actionsOk {
      return Err(NoEvidence);
    }
    var inputsOk, inputs := ObserveInputs(w, bundle.plan.inputs, ActionPaths(bundle.journal.actions));
    if !inputsOk {
      return Err(NoEvidence);
    }
    ghost var o := ObserveAll(w.files, stored.backups, bundle.journal, bundle.plan.inputs);
    assert o.paths == paths;
    assert o.inputs == inputs;
    assert o.backups == backups;
    return Ok(Snapshot(bundle, Observation(paths, inputs, backups)));
  }

  method PlanTransactionRecovery(w: Workspace, controllerID: string, reason: string, action: RecoveryAction)
    returns (r: Result<Plan, Fault>)
    ensures r == PlanRecovery(w.root, w.OnDisk(), controllerID, reason, action)
  {
    hide LoadSnapshot, ClassificationOf, UndoBelow, RedoFrom, Canonically, HashedAll;
    if controllerID == "" || reason == "" {
      return Err(NotApproved);
    }
    var loaded := LoadTransactionSnapshot(w);
    if loaded.Err? {
      return Err(loaded.error);
    }
    var s := loaded.value;
    var changes;
    if action == Rollback {
      changes := RollbackChanges(s.bundle, s.observation);
    } else {
      changes := ContinueChanges(s.bundle, s.observation);
    }
    if changes.Err? {
      var classification := ClassificationOf(s.bundle, s.observation);
      return Err(RecoveryUnavailable(classification));
    }
    return Ok(NewPlan(RecoveryOperation(action), w.root.path, changes.value, [],
                      RecoveryMetadata(controllerID, reason, s.bundle.journal, action)));
  }

  /** The publication loop of ApplyTransactionRecovery. */
  method PublishRecovery(w: Workspace, changes: seq<Change>) returns (fault: Option<Fault>)
    modifies w
    ensures w.Ended(fault, PublishList(w.root, old(w.State()), changes))
  {
    hide Publish, AfterHolds;
    assert changes[0..] == changes;
    for index := 0 to |changes|
      invariant PublishList(w.root, old(w.State()), changes) == PublishList(w.root, w.State(), changes[index..])
    {
      var c := changes[index];
      assert changes[index..][0] == c && changes[index..][1..] == changes[index + 1..];
      if !w.root.resolves(c.path) {
        return Some(Unresolvable);
      }
      fault := w.PublishChange(c);
      if fault.Some? {
        return;
      }
      var settled := w.VerifyAfterState([c]);
      assert AllAfterHold(w.root, w.files, [c]) <==> AfterHolds(w.root, w.files, [c][0]);
      if !settled {
        return Some(AfterMismatch);
      }
    }
    return None;
  }

  method Finish(w: Workspace, bundle: Bundle, action: RecoveryAction, now: int) returns (fault: Option<Fault>)
    modifies w
    ensures w.Ended(fault, FinishRecovery(w.root, old(w.State()), bundle, action, now))
  {
    hide ReceiptFor, ReceiptHashes, Canonically, WriteMigrationReceipt;
    if action == Continue {
      var finalizer := new DurableTransaction(w, bundle.journal, bundle.plan.metadata);
      fault := finalizer.WriteReceipt(Canonically(bundle.plan.changes), now);
      if fault.Some? {
        return;
      }
    }
    var receipt := CompletionReceipt(bundle.journal, now, if action == Continue then Completed else RolledBackResult, map[]);
    var id := bundle.journal.transactionID;
    fault := w.WriteBundle(id, Stored(w.OnDisk(), id).(receipt := Some(receipt)));
    if fault.Some? {
      return;
    }
    if w.pointer.None? {
      return Some(NoEvidence);
    }
    var refused := w.Spend();
    if refused {
      return Some(WriteRefused);
    }
    w.pointer := None;
    return None;
  }

  method ApplyTransactionRecovery(w: Workspace, plan: Plan, approved: PlanID, now: int) returns (fault: Option<Fault>)
    modifies w
    ensures w.Ended(fault, RecoveryRun(w.root, old(w.State()), plan, approved, now))
  {
    hide LoadSnapshot, AllBeforeHold, PublishList, FinishRecovery;
    if approved == NoPlanID || approved != plan.id || plan.workspace != w.root.path {
      return Some(NotApproved);
    }
    var loaded := LoadTransactionSnapshot(w);
    if loaded.Err? {
      return Some(loaded.error);
    }
    var bundle := loaded.value.bundle;
    if !MatchesEvidence(plan.metadata, bundle.journal) {
      return Some(EvidenceChanged);
    }
    if w.locked {
      return Some(LockHeld);
    }
    var refused := w.Spend();
    if refused {
      return Some(WriteRefused);
    }
    w.locked := true;
    var before := w.VerifyBeforeState(plan.changes);
    if !before {
      w.locked := false;
      return Some(BeforeDrift);
    }
    fault := PublishRecovery(w, plan.changes);
    if fault.None? {
      fault := Finish(w, bundle, plan.metadata.recoveryAction, now);
    }
    w.locked := false;
  }

  /** The command line's recovery: the plan is made from the workspace it is then applied to. */
  method RecoverTransaction(w: Workspace, controllerID: string, reason: string, action: RecoveryAction, now: int)
    returns (fault: Option<Fault>)
    modifies w
    ensures w.Ended(fault, Recover(w.root, old(w.State()), controllerID, reason, action, now))
  {
    hide PlanRecovery, RecoveryRun;
    var planned := PlanTransactionRecovery(w, controllerID, reason, action);
    if planned.Err? {
      return Some(planned.error);
    }
    fault := ApplyTransactionRecovery(w, planned.value, planned.value.id, now);
  }
}
