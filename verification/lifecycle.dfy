/** The plans of internal/workspace that touch the ownership file: acquire, release, handoff, stale recovery and
    context sync, each made from the files as they are read. */
module Lifecycle {
  import opened Wrappers
  import opened Records
  import opened Sorting
  import opened Planning
  import opened Text
  import opened Timestamps
  import opened Ownerships
  import opened OwnershipCodec
  import opened Engine
  import opened Invariants

  const CONTEXT_PATH := ".uawp/CONTEXT.md"
  const DECISIONS_PATH := ".uawp/DECISIONS.md"
  const MAX_CONTEXT_BYTES: nat := 0x10_0000

  /** The workspace status the planners ask for first. */
  datatype StatusCode = Ready | ActiveOwner | OtherStatus

  function ReadFile(files: Files, path: string): Option<Bytes> {
    if path in files && files[path].File? then Some(files[path].content) else None
  }

  function OwnerOf(files: Files): Option<Ownership> {
    var content := ReadFile(files, OWNER_PATH);
    if content.Some? && Decode(content.value).Ok? then Some(Decode(content.value).value) else None
  }

  function OwnerChange(before: Bytes, next: Ownership): Option<Change> {
    var encoded := Encode(next);
    if encoded.None? then None
    else Some(NewUpdateFile(OWNER_PATH, PRIVATE_FILE_MODE, HashBytes(before), encoded.value))
  }

  function Read(path: string, content: Bytes): Input {
    Input(path, HashBytes(content))
  }

  function ActorMetadata(actor: Actor, generation: nat): Metadata {
    NO_METADATA.(actorWorkerID := Trim(actor.workerID), actorSessionID := Trim(actor.sessionID), ownershipGeneration := generation)
  }

  /** planOwnershipTransition, once the transition has been computed from the file that was read. */
  function PlanTransition(root: Root, operation: string, actor: Actor, before: Bytes, next: Ownership): Option<Plan> {
    var c := OwnerChange(before, next);
    if c.None? then None
    else
      var generation := if actor.generation == 0 then next.generation else actor.generation;
      Some(NewPlan(operation, root.path, [c.value], [Read(OWNER_PATH, before)], ActorMetadata(actor, generation)))
  }

  function PlanAcquire(root: Root, status: StatusCode, files: Files, request: AcquireRequest): Option<Plan> {
    var before, owner := ReadFile(files, OWNER_PATH), OwnerOf(files);
    if status == OtherStatus || owner.None? || Acquire(owner.value, request).None? then None
    else
      PlanTransition(root, "acquire", Actor(Trim(request.workerID), Trim(request.sessionID), 0), before.value,
                     Acquire(owner.value, request).value)
  }

  function PlanRelease(root: Root, status: StatusCode, files: Files, actor: Actor, at: Time): Option<Plan> {
    var before, owner := ReadFile(files, OWNER_PATH), OwnerOf(files);
    if status == OtherStatus || owner.None? || Release(owner.value, actor, at).None? then None
    else PlanTransition(root, "release", actor, before.value, Release(owner.value, actor, at).value)
  }

  /** Two changes, the other file first and the ownership last. */
  function PlanWithOwner(root: Root, operation: string, path: string, other: Bytes, content: Bytes, before: Bytes,
                         next: Ownership, metadata: Metadata): Option<Plan> {
    var c := OwnerChange(before, next);
    if c.None? then None
    else
      var changes := [WithSequence(NewUpdateFile(path, PRIVATE_FILE_MODE, HashBytes(other), content), 10), WithSequence(c.value, 20)];
      Some(NewPlan(operation, root.path, changes, [Read(path, other), Read(OWNER_PATH, before)], metadata))
  }

  function PlanHandoff(root: Root, status: StatusCode, files: Files, actor: Actor, final: Bytes, purpose: string,
                       at: Time): Option<Plan> {
    var before, owner, context := ReadFile(files, OWNER_PATH), OwnerOf(files), ReadFile(files, CONTEXT_PATH);
    if status != ActiveOwner || Trim(actor.workerID) == "" || Trim(purpose) == "" || final == [] || |final| > MAX_CONTEXT_BYTES
      || owner.None? || Release(owner.value, actor, at).None? || context.None? then None
    else
      PlanWithOwner(root, "handoff", CONTEXT_PATH, context.value, final, before.value, Release(owner.value, actor, at).value,
                    ActorMetadata(actor, actor.generation).(reason := Trim(purpose)))
  }

  /** The dash of the audit heading, byte by byte. */
  const EM_DASH: Bytes := [0xE2 as char, 0x80 as char, 0x94 as char]

  /** The entry a stale recovery appends to the decisions. */
  function AuditEntry(audit: RecoveryAudit): Bytes {
    "\n## Human Controller stale-claim recovery " + EM_DASH + " " + FormatTimestamp(audit.recoveredAt) + "\n\n- Controller ID: " + audit.controllerID
    + "\n- Reason: " + audit.reason + "\n- Old Worker ID: " + audit.oldWorkerID + "\n- Old Session ID: " + audit.oldSessionID
    + "\n- Old Generation: " + Decimal(audit.oldGeneration) + "\n- Old Agent: " + audit.oldAgent
    + "\n- Old Acquired At: " + FormatTimestamp(audit.oldAcquiredAt) + "\n- Recovered At: " + FormatTimestamp(audit.recoveredAt) + "\n"
  }

  function PlanStaleRecovery(root: Root, status: StatusCode, files: Files, request: StaleRequest): Option<Plan> {
    var before, owner, decisions := ReadFile(files, OWNER_PATH), OwnerOf(files), ReadFile(files, DECISIONS_PATH);
    if status != ActiveOwner || owner.None? || RecoverStale(owner.value, request).None? || decisions.None? then None
    else
      var (next, audit) := RecoverStale(owner.value, request).value;
      PlanWithOwner(root, "stale-recovery", DECISIONS_PATH, decisions.value, decisions.value + AuditEntry(audit), before.value, next,
                    NO_METADATA.(reason := audit.reason, controllerID := audit.controllerID))
  }

  function PlanSync(root: Root, actor: Actor, before: Bytes, context: Bytes, content: Bytes): Plan {
    var changes := if context == content then []
                   else [NewUpdateFile(CONTEXT_PATH, PRIVATE_FILE_MODE, HashBytes(context), content)];
    NewPlan("context-sync", root.path, changes, [Read(OWNER_PATH, before)], ActorMetadata(actor, actor.generation))
  }

  function PlanContextSync(root: Root, status: StatusCode, files: Files, actor: Actor, content: Bytes): Option<Plan> {
    var before, owner, context := ReadFile(files, OWNER_PATH), OwnerOf(files), ReadFile(files, CONTEXT_PATH);
    if status != ActiveOwner || content == [] || |content| > MAX_CONTEXT_BYTES || owner.None?
      || !ValidActiveActor(owner.value, actor) || context.None? then None
    else Some(PlanSync(root, actor, before.value, context.value, content))
  }

  // ----- What the plans have in common -----

  /** The plan's last change, and its only one on the ownership file, is one transition of the record it read. */
  ghost predicate MovesOwner(p: Plan, before: Bytes, current: Ownership, next: Ownership) {
    && WellFormed(p) && p.metadata.migrationReceiptPath == "" && p.changes != []
    && Decode(before) == Ok(current) && Follows(next, current) && Seconds(next.acquiredAt) != 0
    && OwnerChange(before, next).Some?
    && p.changes[|p.changes| - 1].(sequence := 0) == OwnerChange(before, next).value
    && (forall i :: 0 <= i < |p.changes| - 1 ==> p.changes[i].path in {CONTEXT_PATH, DECISIONS_PATH})
    && (forall k :: k in p.inputs ==> k.path in {OWNER_PATH, CONTEXT_PATH, DECISIONS_PATH})
    && Read(OWNER_PATH, before) in p.inputs
  }

  /** The plan leaves the ownership file, the namespace and the recovery directory alone. */
  ghost predicate KeepsOwner(p: Plan) {
    && WellFormed(p)
    && (forall q :: q in {OWNER_PATH, NAMESPACE, RECOVERY_ROOT} ==> q !in ChangePaths(p.changes) && q != p.metadata.migrationReceiptPath)
    && p.metadata.migrationReceiptPath != CONTEXT_PATH
    && forall k :: k in p.inputs ==> k.path != RECOVERY_ROOT
  }

  /** A plan that writes the context was made for the actor who holds the claim it read, and binds that claim. */
  ghost predicate Fenced(p: Plan, before: Bytes) {
    CONTEXT_PATH in ChangePaths(p.changes) ==>
      && Read(OWNER_PATH, before) in p.inputs && Decode(before).Ok?
      && p.metadata.ownershipGeneration <= MAX_UINT64
      && ValidActiveActor(Decode(before).value,
           Actor(p.metadata.actorWorkerID, p.metadata.actorSessionID, p.metadata.ownershipGeneration))
  }

  lemma OneChangePlan(operation: string, workspace: string, c: Change, inputs: seq<Input>, metadata: Metadata)
    requires |inputs| <= 1
    ensures var p := NewPlan(operation, workspace, [c], inputs, metadata);
      && Canonical(p) && p.changes == [c] && p.inputs == inputs && p.metadata == metadata && p.workspace == workspace
      && DistinctKeys(p.changes) && ChangePaths(p.changes) == {c.path}
  {
    hide NewPlan, Canonical, ChangePaths, DistinctKeys;
    CanonicalIsIdempotent(operation, workspace, [c], inputs, metadata);
    PlanFields(operation, workspace, [c], inputs, metadata);
    OneChangeIsOrdered(c);
    SortFixesSorted(inputs, ByInputPath);
    PathsOfOne(c);
  }

  lemma OneChangeIsOrdered(c: Change)
    ensures Canonically([c]) == [c] && DistinctKeys([c])
  {
    SortFixesSorted([c], BySequence);
    SortFixesSorted([c], ByPath);
  }

  lemma PathsOfOne(c: Change)
    ensures ChangePaths([c]) == {c.path}
  {
    assert c in [c];
  }

  lemma PathsOfTwo(a: Change, b: Change)
    ensures ChangePaths([a, b]) == {a.path, b.path}
  {
    assert a in [a, b] && b in [a, b];
  }

  lemma TwoChangePlan(operation: string, workspace: string, a: Change, b: Change, inputs: seq<Input>,
                      metadata: Metadata)
    requires a.sequence == 10 && b.sequence == 20
    ensures var p := NewPlan(operation, workspace, [a, b], inputs, metadata);
      && Canonical(p) && p.changes == [a, b] && (forall k :: k in p.inputs <==> k in inputs)
      && p.metadata == metadata && p.workspace == workspace
      && DistinctKeys(p.changes) && ChangePaths(p.changes) == {a.path, b.path}
  {
    hide NewPlan, Canonical, ChangePaths, DistinctKeys;
    CanonicalIsIdempotent(operation, workspace, [a, b], inputs, metadata);
    TwoChangesAreOrdered(a, b);
    SameMultisetSameElements(inputs, Sort(inputs, ByInputPath));
    PathsOfTwo(a, b);
    PlanFields(operation, workspace, [a, b], inputs, metadata);
  }

  lemma PlanFields(operation: string, workspace: string, changes: seq<Change>, inputs: seq<Input>, metadata: Metadata)
    ensures var p := NewPlan(operation, workspace, changes, inputs, metadata);
      && p.changes == Canonically(changes) && p.inputs == Sort(inputs, ByInputPath)
      && p.metadata == metadata && p.workspace == workspace
  {
    hide Canonically, Sort, HashedAll;
  }

  lemma TwoChangesAreOrdered(a: Change, b: Change)
    requires a.sequence == 10 && b.sequence == 20
    ensures Canonically([a, b]) == [a, b] && DistinctKeys([a, b])
  {
    TwoKeysDiffer(a, b);
    hide DistinctKeys;
    assert a in [a, b];
    assert ExplicitSequence([a, b]);
    hide ExplicitSequence, Sort;
    SortFixesSorted([a, b], BySequence);
  }

  lemma TwoKeysDiffer(a: Change, b: Change)
    requires a.sequence == 10 && b.sequence == 20
    ensures DistinctKeys([a, b])
  {
    assert a in [a, b];
    assert ExplicitSequence([a, b]);
    hide ExplicitSequence;
    forall x, y | x in [a, b] && y in [a, b] && x.sequence == y.sequence
      ensures x == y
    {
      assert x == a || x == b;
      assert y == a || y == b;
    }
  }

  lemma OwnerChangeIsPlain(before: Bytes, next: Ownership)
    requires OwnerChange(before, next).Some?
    ensures var c := OwnerChange(before, next).value;
      c.(sequence := 0) == c && c.path == OWNER_PATH && c.kind == UpdateFile && c.before == HashBytes(before)
  {
  }

  lemma TransitionMoves(root: Root, operation: string, actor: Actor, before: Bytes, current: Ownership, next: Ownership)
    requires Decode(before) == Ok(current) && Follows(next, current) && Seconds(next.acquiredAt) != 0
    requires PlanTransition(root, operation, actor, before, next).Some?
    ensures var p := PlanTransition(root, operation, actor, before, next).value;
      && MovesOwner(p, before, current, next) && Fenced(p, before) && p.workspace == root.path
  {
    hide Decode, Encode, Follows, Seconds, Canonical, NewPlan, OwnerChange, DistinctKeys, ChangePaths, Trim,
      ValidActiveActor;
    var c := OwnerChange(before, next).value;
    OwnerChangeIsPlain(before, next);
    var generation := if actor.generation == 0 then next.generation else actor.generation;
    OneChangePlan(operation, root.path, c, [Read(OWNER_PATH, before)], ActorMetadata(actor, generation));
    OneChangeMoves(NewPlan(operation, root.path, [c], [Read(OWNER_PATH, before)], ActorMetadata(actor, generation)), c, before, current, next);
  }

  lemma OneChangeMoves(p: Plan, c: Change, before: Bytes, current: Ownership, next: Ownership)
    requires Canonical(p) && DistinctKeys(p.changes) && p.changes == [c] && p.inputs == [Read(OWNER_PATH, before)]
    requires p.metadata.migrationReceiptPath == "" && ChangePaths(p.changes) == {OWNER_PATH}
    requires Decode(before) == Ok(current) && Follows(next, current) && Seconds(next.acquiredAt) != 0
    requires OwnerChange(before, next).Some? && c == OwnerChange(before, next).value && c.(sequence := 0) == c
    requires c.path == OWNER_PATH && c.kind == UpdateFile
    ensures MovesOwner(p, before, current, next) && Fenced(p, before)
  {
    hide Decode, Encode, Follows, Seconds, Canonical, OwnerChange, DistinctKeys, ChangePaths, ValidActiveActor;
  }

  lemma AcquireMovesOwner(root: Root, status: StatusCode, files: Files, request: AcquireRequest)
    requires PlanAcquire(root, status, files, request).Some? && Seconds(request.at) != 0
    ensures var p, owner := PlanAcquire(root, status, files, request).value, OwnerOf(files).value;
      var before := ReadFile(files, OWNER_PATH).value;
      MovesOwner(p, before, owner, Acquire(owner, request).value) && Fenced(p, before) && p.workspace == root.path
  {
    hide Decode, Encode, Seconds, ValidOwnership, PlanTransition, MovesOwner, Fenced, Trim, Released, Release,
      RecoverStale;
    var owner := OwnerOf(files).value;
    TransitionsClimb(owner, request, Actor("", "", 0), request.at, StaleRequest("", "", request.at));
    TransitionMoves(root, "acquire", Actor(Trim(request.workerID), Trim(request.sessionID), 0),
                    ReadFile(files, OWNER_PATH).value, owner, Acquire(owner, request).value);
  }

  lemma ReleaseMovesOwner(root: Root, status: StatusCode, files: Files, actor: Actor, at: Time)
    requires PlanRelease(root, status, files, actor, at).Some? && Seconds(OwnerOf(files).value.acquiredAt) != 0
    ensures var p, owner := PlanRelease(root, status, files, actor, at).value, OwnerOf(files).value;
      var before := ReadFile(files, OWNER_PATH).value;
      MovesOwner(p, before, owner, Release(owner, actor, at).value) && Fenced(p, before) && p.workspace == root.path
  {
    hide Decode, Encode, Seconds, ValidOwnership, PlanTransition, MovesOwner, Fenced, Trim, ValidActiveActor,
      RecoverStale, Acquire;
    var owner := OwnerOf(files).value;
    TransitionsClimb(owner, AcquireRequest("", "", "", "", at), actor, at, StaleRequest("", "", at));
    TransitionMoves(root, "release", actor, ReadFile(files, OWNER_PATH).value, owner, Release(owner, actor, at).value);
  }

  lemma TwoChangesMove(p: Plan, a: Change, c: Change, path: string, before: Bytes, current: Ownership, next: Ownership)
    requires Canonical(p) && DistinctKeys(p.changes) && p.changes == [a, c] && p.metadata.migrationReceiptPath == ""
    requires a.path == path && path in {CONTEXT_PATH, DECISIONS_PATH} && a.kind == UpdateFile
    requires c.path == OWNER_PATH && c.kind == UpdateFile && OwnerChange(before, next).Some?
    requires c.(sequence := 0) == OwnerChange(before, next).value
    requires forall k :: k in p.inputs ==> k.path in {path, OWNER_PATH}
    requires Read(OWNER_PATH, before) in p.inputs
    requires Decode(before) == Ok(current) && Follows(next, current) && Seconds(next.acquiredAt) != 0
    ensures MovesOwner(p, before, current, next)
  {
    hide Decode, Encode, Follows, Seconds, Canonical, OwnerChange, DistinctKeys;
  }

  lemma PlanWithOwnerMoves(root: Root, operation: string, path: string, other: Bytes, content: Bytes,
                           before: Bytes, current: Ownership, next: Ownership, metadata: Metadata)
    requires PlanWithOwner(root, operation, path, other, content, before, next, metadata).Some?
    requires path in {CONTEXT_PATH, DECISIONS_PATH} && metadata.migrationReceiptPath == ""
    requires Decode(before) == Ok(current) && Follows(next, current) && Seconds(next.acquiredAt) != 0
    ensures var p := PlanWithOwner(root, operation, path, other, content, before, next, metadata).value;
      && MovesOwner(p, before, current, next) && p.workspace == root.path && p.metadata == metadata
      && ChangePaths(p.changes) == {path, OWNER_PATH} && Read(OWNER_PATH, before) in p.inputs
  {
    hide Decode, Encode, Follows, Seconds, MovesOwner, NewPlan, OwnerChange, DistinctKeys, ChangePaths, Canonical;
    var a := WithSequence(NewUpdateFile(path, PRIVATE_FILE_MODE, HashBytes(other), content), 10);
    var c := WithSequence(OwnerChange(before, next).value, 20);
    var inputs := [Read(path, other), Read(OWNER_PATH, before)];
    OwnerChangeIsPlain(before, next);
    TwoChangePlan(operation, root.path, a, c, inputs, metadata);
    assert inputs[1] in inputs;
    TwoChangesMove(NewPlan(operation, root.path, [a, c], inputs, metadata), a, c, path, before, current, next);
  }

  lemma OwnerIsRead(files: Files)
    requires OwnerOf(files).Some?
    ensures ReadFile(files, OWNER_PATH).Some? && Decode(ReadFile(files, OWNER_PATH).value) == Ok(OwnerOf(files).value)
  {
    hide Decode;
  }

  /** The trimmed actor in the metadata passes wherever the actor does. */
  lemma ActorIsRecorded(actor: Actor, o: Ownership)
    requires ValidActiveActor(o, actor)
    ensures ValidActiveActor(o, Actor(Trim(actor.workerID), Trim(actor.sessionID), actor.generation))
  {
    TrimFacts(actor.workerID);
    TrimFacts(actor.sessionID);
    hide Trim, ValidOwnership;
  }

  lemma FencedByMetadata(p: Plan, before: Bytes, current: Ownership, actor: Actor)
    requires Read(OWNER_PATH, before) in p.inputs && Decode(before) == Ok(current) && ValidActiveActor(current, actor)
    requires p.metadata.actorWorkerID == Trim(actor.workerID) && p.metadata.actorSessionID == Trim(actor.sessionID)
    requires p.metadata.ownershipGeneration == actor.generation
    ensures Fenced(p, before)
  {
    hide Decode, Trim, ValidActiveActor;
    ActorIsRecorded(actor, current);
  }

  lemma HandoffMovesOwner(root: Root, status: StatusCode, files: Files, actor: Actor, final: Bytes, purpose: string,
                          at: Time)
    requires PlanHandoff(root, status, files, actor, final, purpose, at).Some?
    requires Seconds(OwnerOf(files).value.acquiredAt) != 0
    ensures var p, owner := PlanHandoff(root, status, files, actor, final, purpose, at).value, OwnerOf(files).value;
      var before := ReadFile(files, OWNER_PATH).value;
      MovesOwner(p, before, owner, Release(owner, actor, at).value) && Fenced(p, before) && p.workspace == root.path
  {
    hide Decode, Encode, Seconds, ValidOwnership, MovesOwner, Trim, Acquire, PlanWithOwner, ValidActiveActor, Fenced,
      OwnerOf, ReadFile;
    OwnerIsRead(files);
    var owner, before := OwnerOf(files).value, ReadFile(files, OWNER_PATH).value;
    var next := Release(owner, actor, at).value;
    TransitionsClimb(owner, AcquireRequest("", "", "", "", at), actor, at, StaleRequest("", "", at));
    PlanWithOwnerMoves(root, "handoff", CONTEXT_PATH, ReadFile(files, CONTEXT_PATH).value, final, before, owner, next,
                       ActorMetadata(actor, actor.generation).(reason := Trim(purpose)));
    FencedByMetadata(PlanHandoff(root, status, files, actor, final, purpose, at).value, before, owner, actor);
  }

  lemma StaleRecoveryMovesOwner(root: Root, status: StatusCode, files: Files, request: StaleRequest)
    requires PlanStaleRecovery(root, status, files, request).Some? && Seconds(OwnerOf(files).value.acquiredAt) != 0
    ensures var p, owner := PlanStaleRecovery(root, status, files, request).value, OwnerOf(files).value;
      var before := ReadFile(files, OWNER_PATH).value;
      MovesOwner(p, before, owner, RecoverStale(owner, request).value.0) && Fenced(p, before) && p.workspace == root.path
  {
    hide Decode, Encode, Seconds, ValidOwnership, MovesOwner, Trim, Acquire, Release, PlanWithOwner, OwnerOf, ReadFile,
      RecoverStale, ValidActiveActor, AuditEntry,
      Fenced, ChangePaths;
    OwnerIsRead(files);
    var owner, before := OwnerOf(files).value, ReadFile(files, OWNER_PATH).value;
    StaleKeepsAcquisition(owner, request);
    var (next, audit) := RecoverStale(owner, request).value;
    var decisions := ReadFile(files, DECISIONS_PATH).value;
    TransitionsClimb(owner, AcquireRequest("", "", "", "", request.at), Actor("", "", 0), request.at, request);
    PlanWithOwnerMoves(root, "stale-recovery", DECISIONS_PATH, decisions, decisions + AuditEntry(audit), before, owner, next,
                       NO_METADATA.(reason := audit.reason, controllerID := audit.controllerID));
    NoContextIsFenced(PlanStaleRecovery(root, status, files, request).value, before);
  }

  lemma NoContextIsFenced(p: Plan, before: Bytes)
    requires CONTEXT_PATH !in ChangePaths(p.changes)
    ensures Fenced(p, before)
  {
  }

  lemma StaleKeepsAcquisition(current: Ownership, request: StaleRequest)
    ensures RecoverStale(current, request).Some? ==> RecoverStale(current, request).value.0.acquiredAt == current.acquiredAt
  {
  }

  lemma SyncPlanKeeps(root: Root, actor: Actor, before: Bytes, context: Bytes, content: Bytes)
    ensures var p := PlanSync(root, actor, before, context, content);
      && KeepsOwner(p) && p.workspace == root.path && p.inputs == [Read(OWNER_PATH, before)]
      && p.metadata == ActorMetadata(actor, actor.generation)
  {
    hide NewPlan, DistinctKeys, ChangePaths, Canonical;
    var inputs, metadata := [Read(OWNER_PATH, before)], ActorMetadata(actor, actor.generation);
    EmptyPlan("context-sync", root.path, inputs, metadata);
    OneChangePlan("context-sync", root.path, NewUpdateFile(CONTEXT_PATH, PRIVATE_FILE_MODE, HashBytes(context), content), inputs, metadata);
  }

  lemma SyncKeepsOwner(root: Root, status: StatusCode, files: Files, actor: Actor, content: Bytes)
    requires PlanContextSync(root, status, files, actor, content).Some?
    ensures var p := PlanContextSync(root, status, files, actor, content).value;
      KeepsOwner(p) && Fenced(p, ReadFile(files, OWNER_PATH).value) && p.workspace == root.path
  {
    hide Decode, ValidOwnership, Trim, PlanSync, OwnerOf, ReadFile, ValidActiveActor, KeepsOwner, Fenced;
    OwnerIsRead(files);
    var before := ReadFile(files, OWNER_PATH).value;
    SyncPlanKeeps(root, actor, before, ReadFile(files, CONTEXT_PATH).value, content);
    FencedByMetadata(PlanContextSync(root, status, files, actor, content).value, before, OwnerOf(files).value, actor);
  }

  lemma EmptyPlan(operation: string, workspace: string, inputs: seq<Input>, metadata: Metadata)
    requires |inputs| <= 1
    ensures var p := NewPlan(operation, workspace, [], inputs, metadata);
      && Canonical(p) && p.changes == [] && p.inputs == inputs && p.metadata == metadata && p.workspace == workspace
      && DistinctKeys(p.changes) && ChangePaths(p.changes) == {}
  {
    hide NewPlan, Canonical;
    CanonicalIsIdempotent(operation, workspace, [], inputs, metadata);
    PlanFields(operation, workspace, [], inputs, metadata);
    SortFixesSorted(inputs, ByInputPath);
  }
}
