/** internal/transaction: validation, classification, and the changes each recovery would make. */
module Transactions {
  import opened Wrappers
  import opened Records
  import opened Planning

  const SCHEMA_VERSION := "1"

  /** CanTransition's table. */
  predicate CanTransition(from: ActionState, to: ActionState) {
    match from
    case Pending => to == InProgress
    case InProgress => to == Applied || to == RolledBack
    case Applied => to == Verified || to == RolledBack
    case Verified => to == RolledBack
    case RolledBack => to == RollbackVerified
    case _ => false
  }

  predicate NeedsBackup(c: Change) {
    c.kind == UpdateFile || c.kind == DeleteFile
  }

  predicate ValidIdentity(id: TransactionID, operation: string, planID: PlanID, workspace: string, phase: Phase) {
    && id != NoTransaction && operation != "" && planID != NoPlanID
    && |workspace| > 0 && workspace[0] == '/'
    && !phase.UnknownPhase?
  }

  predicate ValidAction(a: Action, index: nat) {
    && a.index == index
    && RestorableChange(a.change)
    && !a.state.UnknownState?
    && (NeedsBackup(a.change) ==> a.backup.Some? && a.backupSHA256.Sha256? && a.backupMode != 0)
    && (a.backup.None? ==> a.backupSHA256 == NoDigest)
  }

  predicate ValidJournal(j: Journal) {
    && j.schemaVersion == SCHEMA_VERSION
    && ValidIdentity(j.transactionID, j.operation, j.planID, j.workspace, j.phase)
    && j.startedAt.Some?
    && (forall i :: 0 <= i < |j.actions| ==> ValidAction(j.actions[i], i))
    && (forall i, k :: 0 <= i < k < |j.actions| ==> j.actions[i].change.path != j.actions[k].change.path)
  }

  predicate ValidPointer(p: LivePointer) {
    && p.schemaVersion == SCHEMA_VERSION
    && ValidIdentity(p.transactionID, p.operation, p.planID, p.workspace, p.phase)
  }

  method ValidateJournal(j: Journal) returns (ok: bool)
    ensures ok <==> ValidJournal(j)
  {
    if j.schemaVersion != SCHEMA_VERSION
      || !ValidIdentity(j.transactionID, j.operation, j.planID, j.workspace, j.phase)
      || j.startedAt.None? {
      return false;
    }
    var seen: set<string> := {};
    for index := 0 to |j.actions|
      invariant forall i :: 0 <= i < index ==> ValidAction(j.actions[i], i)
      invariant forall i, k :: 0 <= i < k < index ==> j.actions[i].change.path != j.actions[k].change.path
      invariant forall p :: p in seen <==> exists i :: 0 <= i < index && j.actions[i].change.path == p
    {
      var action := j.actions[index];
      if action.change.path in seen || !ValidAction(action, index) {
        return false;
      }
      seen := seen + {action.change.path};
    }
    return true;
  }

  predicate ValidReceiptFor(r: Receipt, j: Journal) {
    && r.schemaVersion == SCHEMA_VERSION
    && r.transactionID == j.transactionID && r.operation == j.operation && r.planID == j.planID
    && forall p :: p in r.hashes ==> p != "" && r.hashes[p].Sha256?
  }

  predicate PointerAgrees(p: LivePointer, j: Journal) {
    && p.transactionID == j.transactionID && p.operation == j.operation
    && p.planID == j.planID && p.workspace == j.workspace && p.phase == j.phase
  }

  predicate PlanAgrees(p: PersistedPlan, j: Journal) {
    && p.id == j.planID && p.operation == j.operation && p.workspace == j.workspace
    && |j.actions| == |p.changes|
    && forall i :: 0 <= i < |j.actions| ==> j.actions[i].change == p.changes[i]
  }

  /** Bundle.Validate: the records are valid and tell the same story. */
  predicate ValidBundle(b: Bundle) {
    && ValidPointer(b.pointer) && ValidJournal(b.journal) && Restorable(b.plan)
    && PointerAgrees(b.pointer, b.journal) && PlanAgrees(b.plan, b.journal)
    && (b.receipt.Some? ==> ValidReceiptFor(b.receipt.value, b.journal))
  }

  method ValidateBundle(b: Bundle) returns (ok: bool)
    ensures ok <==> ValidBundle(b)
  {
    hide Restorable, ValidJournal, ValidPointer, NewPlan;
    if !ValidPointer(b.pointer) {
      return false;
    }
    var journalOk := ValidateJournal(b.journal);
    if !journalOk {
      return false;
    }
    var restored := Restore(b.plan);
    if restored.Err? || !PointerAgrees(b.pointer, b.journal)
      || b.plan.id != b.journal.planID || b.plan.operation != b.journal.operation
      || b.plan.workspace != b.journal.workspace
      || |b.journal.actions| != |b.plan.changes| {
      return false;
    }
    for index := 0 to |b.journal.actions|
      invariant forall i :: 0 <= i < index ==> b.journal.actions[i].change == b.plan.changes[i]
    {
      if b.journal.actions[index].change != b.plan.changes[index] {
        return false;
      }
    }
    if b.receipt.Some? && !ValidReceiptFor(b.receipt.value, b.journal) {
      return false;
    }
    return true;
  }

  // ----- What recovery observes -----

  datatype PathState = Missing | FileState(sha256: Digest) | DirectoryState | Unsafe

  datatype BackupState = BackupState(valid: bool, sha256: Digest, mode: nat, content: Bytes)

  datatype Observation = Observation(
    paths: map<string, PathState>, inputs: map<string, Digest>, backups: map<nat, BackupState>)

  /** The only state of the path that counts as "not yet changed". */
  function BeforeState(c: Change): PathState {
    match c.kind
    case CreateDir => Missing
    case CreateFile => Missing
    case UpdateFile => FileState(c.before)
    case DeleteFile => FileState(c.before)
    case DeleteDir => DirectoryState
    case UnknownKind(_) => Unsafe
  }

  /** The only state of the path that counts as "changed". */
  function AfterState(c: Change): PathState {
    match c.kind
    case CreateDir => DirectoryState
    case CreateFile => FileState(c.after)
    case UpdateFile => FileState(c.after)
    case DeleteFile => Missing
    case DeleteDir => Missing
    case UnknownKind(_) => Unsafe
  }

  predicate MatchesBefore(c: Change, live: PathState) {
    match c.kind
    case CreateDir => live == Missing
    case CreateFile => live == Missing
    case UpdateFile => live.FileState? && live.sha256 == c.before
    case DeleteFile => live.FileState? && live.sha256 == c.before
    case DeleteDir => live == DirectoryState
    case UnknownKind(_) => false
  }

  predicate MatchesAfter(c: Change, live: PathState) {
    match c.kind
    case CreateDir => live == DirectoryState
    case CreateFile => live.FileState? && live.sha256 == c.after
    case UpdateFile => live.FileState? && live.sha256 == c.after
    case DeleteFile => live == Missing
    case DeleteDir => live == Missing
    case UnknownKind(_) => false
  }

  /** Each kind admits exactly one before state and one after state. */
  lemma MatchesMeansState(c: Change, live: PathState)
    requires !c.kind.UnknownKind?
    ensures MatchesBefore(c, live) <==> live == BeforeState(c)
    ensures MatchesAfter(c, live) <==> live == AfterState(c)
  {
    match c.kind {
      case CreateDir =>
      case CreateFile =>
      case UpdateFile =>
      case DeleteFile =>
      case DeleteDir =>
    }
  }

  function LiveState(o: Observation, path: string): PathState {
    if path in o.paths then o.paths[path] else Unsafe
  }

  predicate EitherSide(a: Action, o: Observation) {
    var live := LiveState(o, a.change.path);
    MatchesBefore(a.change, live) || MatchesAfter(a.change, live)
  }

  predicate BackupGood(a: Action, index: nat, o: Observation) {
    NeedsBackup(a.change) ==>
      && index in o.backups && o.backups[index].valid
      && o.backups[index].sha256 == a.backupSHA256 && o.backups[index].mode == a.backupMode
  }

  function ActionPaths(actions: seq<Action>): set<string> {
    set a | a in actions :: a.change.path
  }

  predicate InputUnchanged(input: Input, o: Observation) {
    input.path in o.inputs && o.inputs[input.path] == input.sha256
  }

  predicate AllAfter(j: Journal, o: Observation) {
    forall i :: 0 <= i < |j.actions| ==> MatchesAfter(j.actions[i].change, LiveState(o, j.actions[i].change.path))
  }

  /** Every action is on one side, every backup is good, and no input outside the actions moved. */
  predicate EvidenceHolds(b: Bundle, o: Observation) {
    && (forall i :: 0 <= i < |b.journal.actions| ==>
          EitherSide(b.journal.actions[i], o) && BackupGood(b.journal.actions[i], i, o))
    && (forall k :: 0 <= k < |b.plan.inputs| && b.plan.inputs[k].path !in ActionPaths(b.journal.actions) ==>
          InputUnchanged(b.plan.inputs[k], o))
  }

  datatype Classification =
    RollbackAvailable | ContinueAvailable | BothAvailable | ManualRequired | TransactionComplete

  datatype Evidence = Evidence(path: string, observed: PathState, before: bool, after: bool, backup: bool)

  /** What the report says about one action. */
  predicate Reports(e: Evidence, a: Action, index: nat, o: Observation) {
    && e.path == a.change.path
    && e.observed == LiveState(o, a.change.path)
    && (e.before <==> MatchesBefore(a.change, e.observed))
    && (e.after <==> MatchesAfter(a.change, e.observed))
    && (e.backup <==> BackupGood(a, index, o))
  }

  datatype Report = Report(classification: Classification, evidence: seq<Evidence>)

  /** The classification, stated by what the evidence must be. */
  function ClassificationOf(b: Bundle, o: Observation): Classification {
    if !ValidBundle(b) then ManualRequired
    else if AllAfter(b.journal, o) && |b.journal.actions| > 0 then TransactionComplete
    else if EvidenceHolds(b, o) then BothAvailable
    else ManualRequired
  }

  method Classify(b: Bundle, o: Observation) returns (report: Report)
    ensures report.classification == ClassificationOf(b, o)
    ensures report.classification in {TransactionComplete, BothAvailable, ManualRequired}
    ensures ValidBundle(b) ==> |report.evidence| == |b.journal.actions|
    ensures ValidBundle(b) ==>
      forall i :: 0 <= i < |report.evidence| ==> Reports(report.evidence[i], b.journal.actions[i], i, o)
  {
    hide ValidBundle;
    var valid := ValidateBundle(b);
    if !valid {
      return Report(ManualRequired, []);
    }
    var evidence, actionsSafe, allAfter, actionPaths := ClassifyActions(b.journal, o);
    var rollbackSafe, continueSafe := actionsSafe, actionsSafe;
    for k := 0 to |b.plan.inputs|
      invariant rollbackSafe == continueSafe
      invariant rollbackSafe <==> actionsSafe && forall i :: 0 <= i < k && b.plan.inputs[i].path !in actionPaths ==>
        InputUnchanged(b.plan.inputs[i], o)
    {
      var input := b.plan.inputs[k];
      if input.path !in actionPaths && (input.path !in o.inputs || o.inputs[input.path] != input.sha256) {
        continueSafe := false;
        rollbackSafe := false;
      }
    }
    var classification;
    if allAfter && |b.journal.actions| > 0 {
      classification := TransactionComplete;
    } else if rollbackSafe && continueSafe {
      classification := BothAvailable;
    } else if rollbackSafe {
      classification := RollbackAvailable;
    } else if continueSafe {
      classification := ContinueAvailable;
    } else {
      classification := ManualRequired;
    }
    return Report(classification, evidence);
  }

  /** Classify's loop over the actions. */
  method ClassifyActions(j: Journal, o: Observation)
    returns (evidence: seq<Evidence>, safe: bool, allAfter: bool, actionPaths: set<string>)
    ensures |evidence| == |j.actions|
    ensures forall i :: 0 <= i < |evidence| ==> Reports(evidence[i], j.actions[i], i, o)
    ensures safe <==> forall i :: 0 <= i < |j.actions| ==>
      EitherSide(j.actions[i], o) && BackupGood(j.actions[i], i, o)
    ensures allAfter <==> AllAfter(j, o)
    ensures actionPaths == ActionPaths(j.actions)
  {
    hide MatchesBefore, MatchesAfter, ClassifiedTo;
    safe, allAfter, actionPaths, evidence := true, true, {}, [];
    NothingClassified(j, o);
    for index := 0 to |j.actions|
      invariant ClassifiedTo(j, o, evidence, safe, allAfter, actionPaths, index)
    {
      var action := j.actions[index];
      var live := if action.change.path in o.paths then o.paths[action.change.path] else Unsafe;
      var before, after := MatchesBefore(action.change, live), MatchesAfter(action.change, live);
      var backupOK := true;
      if action.change.kind == UpdateFile || action.change.kind == DeleteFile {
        backupOK := index in o.backups && o.backups[index].valid
          && o.backups[index].sha256 == action.backupSHA256 && o.backups[index].mode == action.backupMode;
      }
      NextClassified(j, o, evidence, safe, allAfter, actionPaths, index,
                     Evidence(action.change.path, live, before, after, backupOK));
      actionPaths := actionPaths + {action.change.path};
      evidence := evidence + [Evidence(action.change.path, live, before, after, backupOK)];
      safe := safe && (before || after) && backupOK;
      allAfter := allAfter && after;
    }
    AllClassified(j, o, evidence, safe, allAfter, actionPaths);
  }

  /** What the loop over the actions knows after the first index of them. */
  ghost predicate ClassifiedTo(j: Journal, o: Observation, evidence: seq<Evidence>, safe: bool, allAfter: bool,
                               actionPaths: set<string>, index: nat) {
    && |evidence| == index <= |j.actions|
    && (safe <==> forall i :: 0 <= i < index ==> EitherSide(j.actions[i], o) && BackupGood(j.actions[i], i, o))
    && (allAfter <==> forall i :: 0 <= i < index ==>
          MatchesAfter(j.actions[i].change, LiveState(o, j.actions[i].change.path)))
    && actionPaths == ActionPaths(j.actions[..index])
    && forall i :: 0 <= i < index ==> Reports(evidence[i], j.actions[i], i, o)
  }

  lemma NothingClassified(j: Journal, o: Observation)
    ensures ClassifiedTo(j, o, [], true, true, {}, 0)
  {
  }

  lemma NextClassified(j: Journal, o: Observation, evidence: seq<Evidence>, safe: bool, allAfter: bool,
                       actionPaths: set<string>, index: nat, e: Evidence)
    requires ClassifiedTo(j, o, evidence, safe, allAfter, actionPaths, index) && index < |j.actions|
    requires Reports(e, j.actions[index], index, o)
    ensures ClassifiedTo(j, o, evidence + [e], safe && (e.before || e.after) && e.backup, allAfter && e.after,
                         actionPaths + {j.actions[index].change.path}, index + 1)
  {
    hide MatchesBefore, MatchesAfter, BackupGood, LiveState;
    assert EitherSide(j.actions[index], o) <==> e.before || e.after;
    PathsOfNext(j.actions, index);
  }

  lemma PathsOfNext(actions: seq<Action>, index: nat)
    requires index < |actions|
    ensures ActionPaths(actions[..index + 1]) == ActionPaths(actions[..index]) + {actions[index].change.path}
  {
    assert actions[..index + 1] == actions[..index] + [actions[index]];
  }

  lemma AllClassified(j: Journal, o: Observation, evidence: seq<Evidence>, safe: bool, allAfter: bool,
                      actionPaths: set<string>)
    requires ClassifiedTo(j, o, evidence, safe, allAfter, actionPaths, |j.actions|)
    ensures |evidence| == |j.actions| && actionPaths == ActionPaths(j.actions)
    ensures forall i :: 0 <= i < |evidence| ==> Reports(evidence[i], j.actions[i], i, o)
    ensures safe <==> forall i :: 0 <= i < |j.actions| ==> EitherSide(j.actions[i], o) && BackupGood(j.actions[i], i, o)
    ensures allAfter <==> AllAfter(j, o)
  {
    hide MatchesBefore, MatchesAfter, BackupGood, LiveState, EitherSide, Reports;
    assert j.actions[..|j.actions|] == j.actions;
  }

  /** The two journals differ in valid labels only. */
  predicate SameButLabels(j: Journal, k: Journal) {
    && j.(actions := []) == k.(actions := [])
    && |j.actions| == |k.actions|
    && forall i :: 0 <= i < |j.actions| ==>
         && j.actions[i].(state := Pending) == k.actions[i].(state := Pending)
         && !j.actions[i].state.UnknownState? && !k.actions[i].state.UnknownState?
  }

  lemma LabelsKeepValidity(j: Journal, k: Journal)
    requires SameButLabels(j, k) && ValidJournal(j)
    ensures ValidJournal(k)
    ensures ActionPaths(j.actions) == ActionPaths(k.actions)
  {
    forall i | 0 <= i < |k.actions|
      ensures ValidAction(k.actions[i], i) && k.actions[i].change == j.actions[i].change
    {
      assert ValidAction(j.actions[i], i);
      assert k.actions[i] == k.actions[i].(state := Pending).(state := k.actions[i].state);
      assert j.actions[i].(state := Pending) == k.actions[i].(state := Pending);
    }
    assert j == j.(actions := []).(actions := j.actions) && k == k.(actions := []).(actions := k.actions);
    forall p
      ensures p in ActionPaths(j.actions) <==> p in ActionPaths(k.actions)
    {
      if p in ActionPaths(j.actions) {
        var i :| 0 <= i < |j.actions| && j.actions[i].change.path == p;
        assert k.actions[i] in k.actions;
      }
      if p in ActionPaths(k.actions) {
        var i :| 0 <= i < |k.actions| && k.actions[i].change.path == p;
        assert j.actions[i] in j.actions;
      }
    }
  }

  lemma LabelsKeepBundle(b: Bundle, b': Bundle)
    requires b' == b.(journal := b'.journal) && SameButLabels(b.journal, b'.journal)
    requires ValidBundle(b)
    ensures ValidBundle(b')
  {
    hide ValidJournal, Restorable;
    LabelsKeepValidity(b.journal, b'.journal);
    assert b.journal.(actions := []) == b'.journal.(actions := []);
    forall i | 0 <= i < |b.journal.actions|
      ensures b'.journal.actions[i].change == b.plan.changes[i]
    {
      assert b.journal.actions[i].(state := Pending) == b'.journal.actions[i].(state := Pending);
    }
  }

  lemma LabelsKeepEvidence(b: Bundle, b': Bundle, o: Observation)
    requires b' == b.(journal := b'.journal) && SameButLabels(b.journal, b'.journal)
    requires ValidJournal(b.journal)
    ensures AllAfter(b.journal, o) ==> AllAfter(b'.journal, o)
    ensures EvidenceHolds(b, o) ==> EvidenceHolds(b', o)
  {
    hide MatchesBefore, MatchesAfter;
    LabelsKeepValidity(b.journal, b'.journal);
    hide ValidJournal;
    forall i | 0 <= i < |b.journal.actions|
      ensures b.journal.actions[i].change == b'.journal.actions[i].change
      ensures EitherSide(b.journal.actions[i], o) == EitherSide(b'.journal.actions[i], o)
      ensures BackupGood(b.journal.actions[i], i, o) == BackupGood(b'.journal.actions[i], i, o)
    {
      assert b.journal.actions[i].(state := Pending) == b'.journal.actions[i].(state := Pending);
    }
  }

  /** Journal labels never decide: live evidence does. */
  lemma LabelsNeverMatter(b: Bundle, b': Bundle, o: Observation)
    requires b' == b.(journal := b'.journal) && SameButLabels(b.journal, b'.journal)
    ensures ClassificationOf(b, o) == ClassificationOf(b', o)
  {
    if ValidBundle(b) {
      LabelsKeepBundle(b, b');
    }
    if ValidBundle(b') {
      assert SameButLabels(b'.journal, b.journal);
      LabelsKeepBundle(b', b);
      LabelsKeepEvidence(b, b', o);
      LabelsKeepEvidence(b', b, o);
    }
    hide ValidBundle, AllAfter, EvidenceHolds, ValidJournal;
  }

  // ----- The changes a recovery makes -----

  /** The change that undoes a published action. */
  function Undo(a: Action, backup: Bytes): Change {
    var c := a.change;
    match c.kind
    case CreateFile => NewDeleteFile(c.path, c.after)
    case CreateDir => NewDeleteDirectory(c.path)
    case UpdateFile => NewUpdateFile(c.path, a.backupMode, c.after, backup)
    case DeleteFile => NewFile(c.path, a.backupMode, MissingDigest, backup)
    case _ => NewDirectory(c.path, c.mode)
  }

  function BackupContent(o: Observation, index: nat): Bytes {
    if index in o.backups then o.backups[index].content else []
  }

  /** At most one change: the undo of action i, when its path has left its before state. */
  function UndoStep(j: Journal, o: Observation, i: nat): seq<Change>
    requires i < |j.actions|
  {
    var a := j.actions[i];
    if MatchesBefore(a.change, LiveState(o, a.change.path)) then []
    else [WithSequence(Undo(a, BackupContent(o, i)), (|j.actions| - i) * 10)]
  }

  /** The undo list for actions i-1 down to 0: one change for each path that has left its before state. */
  function UndoBelow(j: Journal, o: Observation, i: nat): seq<Change>
    requires i <= |j.actions|
  {
    if i == 0 then [] else UndoStep(j, o, i - 1) + UndoBelow(j, o, i - 1)
  }

  /** At most one change: action i, when its path is not yet after. */
  function RedoStep(j: Journal, o: Observation, i: nat): seq<Change>
    requires i < |j.actions|
  {
    var a := j.actions[i];
    if MatchesAfter(a.change, LiveState(o, a.change.path)) then [] else [a.change]
  }

  /** The redo list for actions i and up: exactly the changes whose paths are not yet after. */
  function RedoFrom(j: Journal, o: Observation, i: nat): seq<Change>
    requires i <= |j.actions|
    decreases |j.actions| - i
  {
    if i == |j.actions| then [] else RedoStep(j, o, i) + RedoFrom(j, o, i + 1)
  }

  datatype RecoveryFault = Unavailable(classification: Classification) | UnsupportedKind | NeitherSide(path: string)

  lemma RecoverableMeansEitherSide(b: Bundle, o: Observation)
    requires ClassificationOf(b, o) in {BothAvailable, TransactionComplete}
    ensures forall i :: 0 <= i < |b.journal.actions| ==> EitherSide(b.journal.actions[i], o)
  {
    hide ValidBundle, MatchesBefore, MatchesAfter;
  }

  method RollbackChanges(b: Bundle, o: Observation) returns (r: Result<seq<Change>, RecoveryFault>)
    ensures r.Ok? <==> ClassificationOf(b, o) == BothAvailable
    ensures r.Ok? ==> r.value == UndoBelow(b.journal, o, |b.journal.actions|)
  {
    hide ClassificationOf, ValidBundle, MatchesBefore, Undo, UndoBelow, LiveState, BackupContent;
    var report := Classify(b, o);
    if report.classification != RollbackAvailable && report.classification != BothAvailable {
      return Err(Unavailable(report.classification));
    }
    var changes: seq<Change> := [];
    var n := |b.journal.actions|;
    for index := n downto 0
      invariant changes + UndoBelow(b.journal, o, index) == UndoBelow(b.journal, o, n)
    {
      var action := b.journal.actions[index];
      var live := LiveState(o, action.change.path);
      UndoGrows(b.journal, o, index, changes);
      if !MatchesBefore(action.change, live) {
        var change := Undo(action, BackupContent(o, index));
        changes := changes + [WithSequence(change, (n - index) * 10)];
      }
    }
    UndoIsOver(b.journal, o, changes);
    return Ok(changes);
  }

  /** Behind some changes, the undo list is its first step and then the rest. */
  lemma UndoGrows(j: Journal, o: Observation, index: nat, changes: seq<Change>)
    requires index < |j.actions|
    ensures changes + UndoBelow(j, o, index + 1) == (changes + UndoStep(j, o, index)) + UndoBelow(j, o, index)
    ensures changes + [] == changes
  {
    hide UndoStep;
  }

  lemma UndoIsOver(j: Journal, o: Observation, changes: seq<Change>)
    ensures changes + UndoBelow(j, o, 0) == changes
  {
  }

  /** ContinueChanges before its stable sort by sequence. */
  method ContinueChanges(b: Bundle, o: Observation) returns (r: Result<seq<Change>, RecoveryFault>)
    ensures r.Ok? <==> ClassificationOf(b, o) in {BothAvailable, TransactionComplete}
    ensures r.Ok? ==> r.value == Sorting.Sort(RedoFrom(b.journal, o, 0), BySequence)
  {
    hide ClassificationOf, ValidBundle, MatchesBefore, MatchesAfter, RedoFrom, LiveState;
    var report := Classify(b, o);
    if report.classification != ContinueAvailable && report.classification != BothAvailable
      && report.classification != TransactionComplete {
      return Err(Unavailable(report.classification));
    }
    RecoverableMeansEitherSide(b, o);
    var changes: seq<Change> := [];
    for index := 0 to |b.journal.actions|
      invariant changes + RedoFrom(b.journal, o, index) == RedoFrom(b.journal, o, 0)
    {
      var action := b.journal.actions[index];
      var live := LiveState(o, action.change.path);
      RedoGrows(b.journal, o, index, changes);
      assert EitherSide(action, o);
      if !MatchesAfter(action.change, live) {
        if !MatchesBefore(action.change, live) {
          return Err(NeitherSide(action.change.path));
        }
        changes := changes + [action.change];
      }
    }
    RedoIsOver(b.journal, o, changes);
    return Ok(Sorting.Sort(changes, BySequence));
  }

  lemma RedoGrows(j: Journal, o: Observation, index: nat, changes: seq<Change>)
    requires index < |j.actions|
    ensures changes + RedoFrom(j, o, index) == (changes + RedoStep(j, o, index)) + RedoFrom(j, o, index + 1)
    ensures changes + [] == changes
  {
    hide RedoStep;
  }

  lemma RedoIsOver(j: Journal, o: Observation, changes: seq<Change>)
    ensures changes + RedoFrom(j, o, |j.actions|) == changes
  {
  }
}
