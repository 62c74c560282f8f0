/** Ownership over whole runs of the workspace: Apply calls of any previewed plans and recoveries, each cut off
    anywhere. The ownership record only ever moves forward, and the context only changes under the claim that
    its plan was made for. */
module OwnershipRuns {
  import opened Wrappers
  import opened Records
  import opened Transactions
  import opened Text
  import opened Timestamps
  import opened Ownerships
  import opened OwnershipCodec
  import opened Engine
  import opened Invariants
  import opened ApplyProofs
  import opened RecoveryOutcomes
  import opened Runs
  import opened Lifecycle

  datatype Event =
    | Start(plan: Plan, approved: PlanID, started: int, finished: int, writes: nat)
    | Repair(attempt: Attempt)

  function Stepped(root: Root, d: Disk, e: Event): Disk {
    match e
    case Start(plan, approved, started, finished, writes) =>
      ApplyRun(root, Machine(d, writes), plan, approved, started, finished).m.disk
    case Repair(attempt) => Attempted(root, d, attempt).m.disk
  }

  /** One transition of the ownership record, or a plan that leaves it alone; and the context only for its owner. */
  ghost predicate Allowed(p: Plan) {
    && (KeepsOwner(p) || (exists before, current, next :: MovesOwner(p, before, current, next)))
    && (exists before :: Fenced(p, before))
  }

  ghost predicate AllowedEvent(e: Event) {
    match e
    case Start(plan, _, _, _, _) => Allowed(plan)
    case Repair(attempt) => attempt.action in {Rollback, Continue}
  }

  /** An unfinished transaction of an allowed plan, published in order. */
  ghost predicate Unfinished(t: Txn, d: Disk) {
    && Sound(t) && Holds(t, d) && Allowed(t.plan) && NAMESPACE in t.origin && Foreseen(t.origin, t.plan)
    && exists k :: AtPrefix(t, d.files, k)
  }

  /** The workspace between two events. */
  ghost predicate Good(root: Root, d: Disk) {
    && !d.locked && NAMESPACE in d.files && OwnerOf(d.files).Some?
    && (d.pointer.Some? ==> exists t: Txn :: t.root == root && Unfinished(t, d))
  }

  function OwnerBytes(d: Disk): Option<Bytes> {
    ReadFile(d.files, OWNER_PATH)
  }

  /** The ownership file as it was, or one transition further. */
  ghost predicate Advances(d: Disk, d': Disk) {
    && OwnerOf(d.files).Some? && OwnerOf(d'.files).Some?
    && (OwnerBytes(d') == OwnerBytes(d) || Rank(OwnerOf(d'.files).value) == Rank(OwnerOf(d.files).value) + 1)
  }

  // ----- Facts about allowed plans -----

  /** Every plan the ownership commands preview is allowed, but for claims of the zero second. */
  lemma PlannersAreAllowed(root: Root, status: StatusCode, files: Files, request: AcquireRequest, actor: Actor,
                           at: Time,
                           final: Bytes, purpose: string, stale: StaleRequest)
    requires OwnerOf(files).Some? ==> Seconds(OwnerOf(files).value.acquiredAt) != 0
    requires Seconds(request.at) != 0
    ensures PlanAcquire(root, status, files, request).Some? ==> Allowed(PlanAcquire(root, status, files, request).value)
    ensures PlanRelease(root, status, files, actor, at).Some? ==> Allowed(PlanRelease(root, status, files, actor, at).value)
    ensures PlanHandoff(root, status, files, actor, final, purpose, at).Some? ==>
      Allowed(PlanHandoff(root, status, files, actor, final, purpose, at).value)
    ensures PlanStaleRecovery(root, status, files, stale).Some? ==> Allowed(PlanStaleRecovery(root, status, files, stale).value)
    ensures PlanContextSync(root, status, files, actor, final).Some? ==> Allowed(PlanContextSync(root, status, files, actor, final).value)
  {
    hide PlanAcquire, PlanRelease, PlanHandoff, PlanStaleRecovery, PlanContextSync, OwnerOf, Seconds, Allowed;
    PlannersReadOwner(root, status, files, request, actor, at, final, purpose, stale);
    if PlanAcquire(root, status, files, request).Some? {
      AcquireIsAllowed(root, status, files, request);
    }
    if PlanRelease(root, status, files, actor, at).Some? {
      ReleaseIsAllowed(root, status, files, actor, at);
    }
    if PlanHandoff(root, status, files, actor, final, purpose, at).Some? {
      HandoffIsAllowed(root, status, files, actor, final, purpose, at);
    }
    if PlanStaleRecovery(root, status, files, stale).Some? {
      StaleRecoveryIsAllowed(root, status, files, stale);
    }
    if PlanContextSync(root, status, files, actor, final).Some? {
      SyncIsAllowed(root, status, files, actor, final);
    }
  }

  lemma AcquireIsAllowed(root: Root, status: StatusCode, files: Files, request: AcquireRequest)
    requires PlanAcquire(root, status, files, request).Some? && Seconds(request.at) != 0
    ensures Allowed(PlanAcquire(root, status, files, request).value)
  {
    AcquireMovesOwner(root, status, files, request);
    hide Decode, Encode, MovesOwner, KeepsOwner, Fenced, Seconds, Acquire, PlanTransition, Allowed, Trim;
    OwnerIsRead(files);
    var owner := OwnerOf(files).value;
    MoveIsAllowed(PlanAcquire(root, status, files, request).value, ReadFile(files, OWNER_PATH).value, owner, Acquire(owner, request).value);
  }

  lemma ReleaseIsAllowed(root: Root, status: StatusCode, files: Files, actor: Actor, at: Time)
    requires PlanRelease(root, status, files, actor, at).Some? && Seconds(OwnerOf(files).value.acquiredAt) != 0
    ensures Allowed(PlanRelease(root, status, files, actor, at).value)
  {
    ReleaseMovesOwner(root, status, files, actor, at);
    hide Decode, Encode, MovesOwner, KeepsOwner, Fenced, Seconds, Release, PlanTransition, Allowed, Trim;
    OwnerIsRead(files);
    var owner := OwnerOf(files).value;
    MoveIsAllowed(PlanRelease(root, status, files, actor, at).value, ReadFile(files, OWNER_PATH).value, owner, Release(owner, actor, at).value);
  }

  lemma HandoffIsAllowed(root: Root, status: StatusCode, files: Files, actor: Actor, final: Bytes, purpose: string,
                         at: Time)
    requires PlanHandoff(root, status, files, actor, final, purpose, at).Some?
    requires Seconds(OwnerOf(files).value.acquiredAt) != 0
    ensures Allowed(PlanHandoff(root, status, files, actor, final, purpose, at).value)
  {
    HandoffMovesOwner(root, status, files, actor, final, purpose, at);
    hide Decode, Encode, MovesOwner, KeepsOwner, Fenced, Seconds, Release, PlanWithOwner, Allowed, Trim;
    OwnerIsRead(files);
    var owner := OwnerOf(files).value;
    MoveIsAllowed(PlanHandoff(root, status, files, actor, final, purpose, at).value, ReadFile(files, OWNER_PATH).value, owner,
                  Release(owner, actor, at).value);
  }

  lemma StaleRecoveryIsAllowed(root: Root, status: StatusCode, files: Files, stale: StaleRequest)
    requires PlanStaleRecovery(root, status, files, stale).Some? && Seconds(OwnerOf(files).value.acquiredAt) != 0
    ensures Allowed(PlanStaleRecovery(root, status, files, stale).value)
  {
    StaleRecoveryMovesOwner(root, status, files, stale);
    hide Decode, Encode, MovesOwner, KeepsOwner, Fenced, Seconds, RecoverStale, PlanWithOwner, Allowed, AuditEntry,
      Trim;
    OwnerIsRead(files);
    var owner := OwnerOf(files).value;
    MoveIsAllowed(PlanStaleRecovery(root, status, files, stale).value, ReadFile(files, OWNER_PATH).value, owner,
                  RecoverStale(owner, stale).value.0);
  }

  lemma SyncIsAllowed(root: Root, status: StatusCode, files: Files, actor: Actor, content: Bytes)
    requires PlanContextSync(root, status, files, actor, content).Some?
    ensures Allowed(PlanContextSync(root, status, files, actor, content).value)
  {
    SyncKeepsOwner(root, status, files, actor, content);
    hide Decode, MovesOwner, KeepsOwner, Fenced, PlanSync, Allowed, ValidActiveActor;
    OwnerIsRead(files);
    KeepIsAllowed(PlanContextSync(root, status, files, actor, content).value, ReadFile(files, OWNER_PATH).value);
  }

  lemma MoveIsAllowed(p: Plan, before: Bytes, current: Ownership, next: Ownership)
    requires MovesOwner(p, before, current, next) && Fenced(p, before)
    ensures Allowed(p)
  {
  }

  lemma KeepIsAllowed(p: Plan, before: Bytes)
    requires KeepsOwner(p) && Fenced(p, before)
    ensures Allowed(p)
  {
  }

  lemma PlannersReadOwner(root: Root, status: StatusCode, files: Files, request: AcquireRequest, actor: Actor, at: Time,
                          final: Bytes, purpose: string, stale: StaleRequest)
    ensures PlanAcquire(root, status, files, request).Some? || PlanRelease(root, status, files, actor, at).Some?
      || PlanHandoff(root, status, files, actor, final, purpose, at).Some? || PlanStaleRecovery(root, status, files, stale).Some?
      || PlanContextSync(root, status, files, actor, final).Some?
      ==> OwnerOf(files).Some?
  {
    hide OwnerOf, Acquire, Release, RecoverStale, PlanTransition, PlanWithOwner, PlanSync, ValidActiveActor, Trim,
      AuditEntry;
  }

  lemma MovesOwnerFacts(p: Plan, before: Bytes, current: Ownership, next: Ownership)
    requires MovesOwner(p, before, current, next)
    ensures p.changes != []
    ensures var c := p.changes[|p.changes| - 1];
      && c.path == OWNER_PATH && c.kind == UpdateFile && c.before == HashBytes(before)
      && BeforeState(c) == FileState(HashBytes(before)) && AfterState(c) == FileState(HashBytes(c.content))
      && Decode(before) == Ok(current) && Decode(c.content).Ok? && Rank(Decode(c.content).value) == Rank(current) + 1
      && c.content != before
    ensures forall q :: q in {NAMESPACE, RECOVERY_ROOT} ==> q !in ChangePaths(p.changes) && q != p.metadata.migrationReceiptPath
    ensures forall k :: k in p.inputs ==> k.path != RECOVERY_ROOT
    ensures WellFormed(p) && p.metadata.migrationReceiptPath == ""
  {
    hide WellFormed, Decode, Encode, Seconds, ValidOwnership;
    var c := p.changes[|p.changes| - 1];
    var o := OwnerChange(before, next).value;
    assert c == o.(sequence := c.sequence) by {
      assert c.(sequence := 0) == o;
    }
    WrittenOwnerReads(before, current, next);
    forall q | q in {NAMESPACE, RECOVERY_ROOT}
      ensures q !in ChangePaths(p.changes)
    {
      if q in ChangePaths(p.changes) {
        var i := ChangePathIndex(p.changes, q);
      }
    }
  }

  lemma WrittenOwnerReads(before: Bytes, current: Ownership, next: Ownership)
    requires Decode(before) == Ok(current) && Follows(next, current) && Seconds(next.acquiredAt) != 0
    requires OwnerChange(before, next).Some?
    ensures var c := OwnerChange(before, next).value;
      Decode(c.content).Ok? && Rank(Decode(c.content).value) == Rank(current) + 1 && c.content != before
  {
    hide Decode, Encode, Seconds, ValidOwnership;
    DecodeUndoesEncode(next);
  }

  lemma AllowedFacts(p: Plan)
    requires Allowed(p)
    ensures WellFormed(p)
    ensures forall q :: q in {NAMESPACE, RECOVERY_ROOT} ==> q !in ChangePaths(p.changes) && q != p.metadata.migrationReceiptPath
    ensures forall k :: k in p.inputs ==> k.path != RECOVERY_ROOT
    ensures p.metadata.migrationReceiptPath !in {OWNER_PATH, CONTEXT_PATH}
    ensures forall files :: NAMESPACE in files ==> Foreseen(files, p)
  {
    hide WellFormed, MovesOwner, ChangePaths, KeepsOwner, Fenced, Foreseen;
    if !KeepsOwner(p) {
      var before, current, next :| MovesOwner(p, before, current, next);
      MovesOwnerFacts(p, before, current, next);
      assert |OWNER_PATH| > 0 && |CONTEXT_PATH| > 0;
    } else {
      KeepsOwnerFacts(p);
    }
    AlwaysForeseen(p);
  }

  lemma AlwaysForeseen(p: Plan)
    requires RECOVERY_ROOT !in ChangePaths(p.changes) && forall k :: k in p.inputs ==> k.path != RECOVERY_ROOT
    ensures forall files :: NAMESPACE in files ==> Foreseen(files, p)
  {
    hide ChangePaths;
    forall files: Files | NAMESPACE in files
      ensures Foreseen(files, p)
    {
      assert forall k :: 0 <= k < |p.inputs| ==> p.inputs[k] in p.inputs;
    }
  }

  lemma KeepsOwnerFacts(p: Plan)
    requires KeepsOwner(p)
    ensures WellFormed(p)
    ensures forall q :: q in {OWNER_PATH, NAMESPACE, RECOVERY_ROOT} ==> q !in ChangePaths(p.changes) && q != p.metadata.migrationReceiptPath
    ensures forall k :: k in p.inputs ==> k.path != RECOVERY_ROOT
    ensures p.metadata.migrationReceiptPath !in {OWNER_PATH, CONTEXT_PATH}
  {
    hide WellFormed, ChangePaths;
    assert OWNER_PATH !in ChangePaths(p.changes) && NAMESPACE !in ChangePaths(p.changes) && RECOVERY_ROOT !in ChangePaths(p.changes);
  }

  // ----- One transaction -----

  /** The protocol's own files outside the plan are as they were when the transaction began. */
  ghost predicate Undisturbed(t: Txn, files: Files) {
    forall q :: q in {OWNER_PATH, CONTEXT_PATH, NAMESPACE} && q !in ChangePaths(t.plan.changes) ==> Get(files, q) == Get(t.origin, q)
  }

  lemma FramedIsUndisturbed(t: Txn, files: Files)
    requires Allowed(t.plan) && NAMESPACE in t.origin && Framed(t, files)
    ensures Undisturbed(t, files)
  {
    hide Allowed, ChangePaths, WellFormed, Foreseen;
    AllowedFacts(t.plan);
    ProtocolPathsDiffer();
    forall q | q in {OWNER_PATH, CONTEXT_PATH, NAMESPACE} && q !in ChangePaths(t.plan.changes)
      ensures Get(files, q) == Get(t.origin, q)
    {
      assert q != t.plan.metadata.migrationReceiptPath;
      StagedElsewhere(t.origin, q);
    }
  }

  lemma ProtocolPathsDiffer()
    ensures RECOVERY_ROOT !in {OWNER_PATH, CONTEXT_PATH, NAMESPACE}
  {
    assert OWNER_PATH[6] == 'A' && CONTEXT_PATH[6] == 'C' && RECOVERY_ROOT[6] == 'r' && |NAMESPACE| == 5;
  }

  lemma StagedElsewhere(files: Files, q: string)
    requires NAMESPACE in files && q != RECOVERY_ROOT
    ensures Get(StagedFiles(files), q) == Get(files, q)
  {
  }

  lemma LookReads(files: Files, path: string, content: Bytes)
    requires Look(files, path) == FileState(HashBytes(content))
    ensures ReadFile(files, path) == Some(content)
  {
  }

  /** What two looks at the same transaction can show of the ownership file. */
  lemma OwnerMovesWithin(t: Txn, files: Files, files': Files, k: nat)
    requires Allowed(t.plan) && t.Size() > 0
    requires EitherWay(t, files) && Undisturbed(t, files) && AtPrefix(t, files, k)
    requires EitherWay(t, files') && Undisturbed(t, files') && (AllAfterState(t, files) ==> AllAfterState(t, files'))
    requires OwnerOf(files).Some?
    ensures OwnerOf(files').Some?
    ensures ReadFile(files', OWNER_PATH) == ReadFile(files, OWNER_PATH) || Rank(OwnerOf(files').value) == Rank(OwnerOf(files).value) + 1
  {
    hide WellFormed, Decode, MovesOwner, ValidOwnership, Look, BeforeState, AfterState, ChangePaths;
    if KeepsOwner(t.plan) {
      assert OWNER_PATH !in ChangePaths(t.plan.changes);
      assert Get(files', OWNER_PATH) == Get(files, OWNER_PATH);
    } else {
      var before, current, next :| MovesOwner(t.plan, before, current, next);
      MovesOwnerFacts(t.plan, before, current, next);
      var n := t.Size() - 1;
      var c := t.plan.changes[n];
      assert FileState(HashBytes(before)) != FileState(HashBytes(c.content));
      if Look(files, OWNER_PATH) == AfterState(c) {
        LookReads(files, OWNER_PATH, c.content);
        assert k == t.Size();
        assert Look(files', OWNER_PATH) == AfterState(c);
        LookReads(files', OWNER_PATH, c.content);
      } else {
        LookReads(files, OWNER_PATH, before);
        if Look(files', OWNER_PATH) == AfterState(c) {
          LookReads(files', OWNER_PATH, c.content);
        } else {
          LookReads(files', OWNER_PATH, before);
        }
      }
    }
  }

  // ----- One event -----

  lemma KeepsNamespace(t: Txn, files: Files)
    requires Allowed(t.plan) && NAMESPACE in t.origin && Undisturbed(t, files)
    ensures NAMESPACE in files
  {
    hide Allowed, ChangePaths;
    AllowedFacts(t.plan);
    assert Get(files, NAMESPACE) == Get(t.origin, NAMESPACE);
  }

  lemma UnfinishedStays(t: Txn, d: Disk, k: nat)
    requires Sound(t) && Holds(t, d) && Allowed(t.plan) && NAMESPACE in t.origin && Foreseen(t.origin, t.plan)
    requires AtPrefix(t, d.files, k)
    ensures Unfinished(t, d)
  {
  }

  lemma RepairAdvances(root: Root, d: Disk, t: Txn, a: Attempt)
    requires Good(root, d) && t.root == root && Unfinished(t, d) && a.action in {Rollback, Continue}
    ensures Good(root, Stepped(root, d, Repair(a))) && Advances(d, Stepped(root, d, Repair(a)))
  {
    hide Sound, Live, EitherWay, Framed, AtPrefix, AllAfterState, AllBeforeState, Attempted, OwnerOf, Allowed,
      Foreseen, Undisturbed, Unfinished,
      Offers, Unobstructed, NoDirectoryMade, Progressed, RecoveryEnds, ReceiptAccepted;
    var d' := Stepped(root, d, Repair(a));
    var k := UnfinishedFacts(t, d);
    var k' := RecoveryKeeps(t, d, a, k, true);
    FinalAfterOne(t, d, a);
    EndSides(t, d, a.action, Attempted(root, d, a));
    FramedIsUndisturbed(t, d.files);
    FramedIsUndisturbed(t, d'.files);
    SizeIsPositive(t);
    OwnerMovesWithin(t, d.files, d'.files, k);
    KeepsNamespace(t, d'.files);
    if d'.pointer.Some? {
      UnfinishedStays(t, d', k');
    }
  }

  lemma UnfinishedFacts(t: Txn, d: Disk) returns (k: nat)
    requires Unfinished(t, d)
    ensures Sound(t) && Holds(t, d) && Allowed(t.plan) && NAMESPACE in t.origin && Foreseen(t.origin, t.plan)
    ensures AtPrefix(t, d.files, k)
  {
    k :| AtPrefix(t, d.files, k);
  }

  lemma SizeIsPositive(t: Txn)
    requires Sound(t)
    ensures t.Size() > 0
  {
  }

  lemma EndSides(t: Txn, d: Disk, action: RecoveryAction, r: Run)
    requires RecoveryEnds(t, d, action, r)
    ensures EitherWay(t, r.m.disk.files) && Framed(t, r.m.disk.files)
    ensures r.m.disk.pointer.Some? ==> Holds(t, r.m.disk)
  {
    hide Framed, Live;
    if r.m.disk.pointer.None? {
      SidesAreEitherWay(t, r.m.disk.files, action);
    }
  }

  lemma NothingToRepair(root: Root, d: Disk, a: Attempt)
    requires d.pointer.None?
    ensures Stepped(root, d, Repair(a)) == d
  {
    assert LoadSnapshot(root, d) == Err(NoEvidence);
  }

  /** Apply refuses to start while a transaction is unfinished. */
  lemma LiveRefusesStart(root: Root, d: Disk, plan: Plan, approved: PlanID, started: int, finished: int, writes: nat)
    requires d.pointer.Some? && !d.locked && NAMESPACE in d.files
    ensures Stepped(root, d, Start(plan, approved, started, finished, writes)) == d
  {
    hide ApplyBody;
    assert d.(locked := true).(locked := false) == d;
  }

  lemma OriginSides(t: Txn)
    requires Sound(t)
    ensures EitherWay(t, t.origin) && AtPrefix(t, t.origin, 0) && AllBeforeState(t, t.origin)
  {
    hide WellFormed, InputsHold, EncodablePlan, StagedJournal, ValidJournal, Look, BeforeState, AfterState;
    forall i | 0 <= i < t.Size()
      ensures Look(t.origin, t.plan.changes[i].path) == BeforeState(t.plan.changes[i])
    {
      assert SoundChange(t, t.plan.changes[i]);
    }
  }

  lemma SilentPlanStaysAfter(t: Txn, files: Files)
    requires AllBeforeState(t, t.origin) && AllAfterState(t, t.origin) && EitherWay(t, files)
    ensures AllAfterState(t, files)
  {
    hide Look, BeforeState, AfterState;
  }

  lemma StartedAdvances(t: Txn, d: Disk, d': Disk)
    requires Sound(t) && Allowed(t.plan) && NAMESPACE in t.origin && t.origin == d.files && OwnerOf(d.files).Some?
    requires EitherWay(t, d'.files) && Framed(t, d'.files)
    ensures Advances(d, d') && NAMESPACE in d'.files
  {
    hide Sound, EitherWay, Framed, AtPrefix, AllAfterState, AllBeforeState, OwnerOf, Allowed;
    OriginSides(t);
    FramedIsUndisturbed(t, d'.files);
    assert Undisturbed(t, t.origin);
    if AllAfterState(t, t.origin) {
      SilentPlanStaysAfter(t, d'.files);
    }
    SizeIsPositive(t);
    OwnerMovesWithin(t, t.origin, d'.files, 0);
    KeepsNamespace(t, d'.files);
  }

  lemma StartAdvances(root: Root, d: Disk, plan: Plan, approved: PlanID, started: int, finished: int, writes: nat)
    requires Good(root, d) && d.pointer.None? && Allowed(plan)
    ensures var d' := Stepped(root, d, Start(plan, approved, started, finished, writes)); Good(root, d') && Advances(d, d')
  {
    var e := Start(plan, approved, started, finished, writes);
    var t, m := TxnOf(root, d.files, plan, started), Machine(d, writes);
    var r := ApplyRun(root, m, plan, approved, started, finished);
    hide ApplyRun, Sound, Holds, Framed, EitherWay, AllAfterState, AtPrefix, OwnerOf, Allowed, StagedFiles,
      StagedJournal, Foreseen, LabelsTrue, Unfinished;
    AllowedFacts(plan);
    ApplyStopsSafely(root, m, plan, approved, started, finished);
    ApplyUnlocks(root, m, plan, approved, started, finished);
    if r.m.disk.pointer.Some? {
      HoldsSides(t, r.m.disk);
      StartedAdvances(t, d, r.m.disk);
      assert Foreseen(t.origin, t.plan);
      var k :| AtPrefix(t, r.m.disk.files, k);
      UnfinishedStays(t, r.m.disk, k);
    } else if r.Halt? || plan.changes == [] {
      SameOwnerAdvances(d, r.m.disk);
    } else {
      AllAfterIsPrefix(t, r.m.disk.files);
      StartedAdvances(t, d, r.m.disk);
    }
  }

  lemma HoldsSides(t: Txn, d: Disk)
    requires Holds(t, d)
    ensures EitherWay(t, d.files) && Framed(t, d.files)
  {
  }

  lemma SameOwnerAdvances(d: Disk, d': Disk)
    requires OwnerOf(d.files).Some? && NAMESPACE in d.files && d'.files in {d.files, StagedFiles(d.files)}
    ensures Advances(d, d') && NAMESPACE in d'.files
  {
    hide Decode;
    ProtocolPathsDiffer();
    StagedElsewhere(d.files, OWNER_PATH);
    StagedElsewhere(d.files, NAMESPACE);
    assert Get(d'.files, OWNER_PATH) == Get(d.files, OWNER_PATH);
  }

  /** One event keeps the workspace good and moves the ownership forward by one transition at most. */
  lemma EventAdvances(root: Root, d: Disk, e: Event)
    requires Good(root, d) && AllowedEvent(e)
    ensures Good(root, Stepped(root, d, e)) && Advances(d, Stepped(root, d, e))
  {
    hide Stepped, Unfinished, OwnerOf, Allowed;
    match e {
      case Start(plan, approved, started, finished, writes) =>
        if d.pointer.Some? {
          LiveRefusesStart(root, d, plan, approved, started, finished, writes);
        } else {
          StartAdvances(root, d, plan, approved, started, finished, writes);
        }
      case Repair(a) =>
        if d.pointer.Some? {
          var t: Txn :| t.root == root && Unfinished(t, d);
          RepairAdvances(root, d, t, a);
        } else {
          NothingToRepair(root, d, a);
        }
    }
  }

  // ----- Whole runs -----

  function Played(root: Root, d: Disk, events: seq<Event>): Disk
    decreases |events|
  {
    if events == [] then d else Played(root, Stepped(root, d, events[0]), events[1..])
  }

  ghost predicate AllAllowed(events: seq<Event>) {
    forall e :: e in events ==> AllowedEvent(e)
  }

  function RankAt(d: Disk): nat
    requires OwnerOf(d.files).Some?
  {
    Rank(OwnerOf(d.files).value)
  }

  /** Over any run of plans and recoveries, each cut off anywhere, the ownership never goes back; while it stands
      still its file does not change by a byte. */
  lemma {:induction false} RunAdvances(root: Root, d: Disk, events: seq<Event>)
    requires Good(root, d) && AllAllowed(events)
    ensures var d' := Played(root, d, events);
      && Good(root, d') && RankAt(d) <= RankAt(d')
      && (RankAt(d) == RankAt(d') ==> OwnerBytes(d) == OwnerBytes(d'))
    decreases |events|
  {
    hide Stepped, OwnerOf, OwnerBytes, Unfinished, AllowedEvent, Rank;
    if events != [] {
      EventAdvances(root, d, events[0]);
      SameBytesSameRank(d, Stepped(root, d, events[0]));
      RunAdvances(root, Stepped(root, d, events[0]), events[1..]);
    }
  }

  lemma SameBytesSameRank(d: Disk, d': Disk)
    requires OwnerOf(d.files).Some? && OwnerOf(d'.files).Some?
    ensures OwnerBytes(d) == OwnerBytes(d') ==> RankAt(d) == RankAt(d')
  {
    hide Decode;
  }

  /** No ABA: once the ownership file has changed, its old bytes never come back. */
  lemma BytesNeverReturn(root: Root, d: Disk, events: seq<Event>, more: seq<Event>)
    requires Good(root, d) && AllAllowed(events) && AllAllowed(more)
    requires OwnerBytes(Played(root, d, events)) != OwnerBytes(d)
    ensures OwnerBytes(Played(root, Played(root, d, events), more)) != OwnerBytes(d)
  {
    hide Played, OwnerOf, OwnerBytes, Unfinished, AllAllowed, Rank;
    var d1 := Played(root, d, events);
    RunAdvances(root, d, events);
    RunAdvances(root, d1, more);
    SameBytesSameRank(d, Played(root, d1, more));
  }

  /** A plan that binds other ownership bytes than the disk's is refused, and nothing at all changes. */
  lemma StalePlanIsRefused(root: Root, d: Disk, p: Plan, before: Bytes, approved: PlanID, started: int, finished: int,
                           writes: nat)
    requires Read(OWNER_PATH, before) in p.inputs && OwnerBytes(d) != Some(before)
    requires !d.locked && NAMESPACE in d.files
    ensures Stepped(root, d, Start(p, approved, started, finished, writes)) == d
  {
    assert !InputsHold(d.files, p.inputs, {}) by {
      var k :| 0 <= k < |p.inputs| && p.inputs[k] == Read(OWNER_PATH, before);
      assert !InputHolds(d.files, p.inputs[k]);
    }
    hide InputsHold;
    assert d.(locked := true).(locked := false) == d;
    var m := Machine(d.(locked := true), if writes == 0 then 0 else writes - 1);
    assert ApplyBody(root, m, p, started, finished) == Halt(m, InputDrift);
    hide ApplyBody;
  }

  /** Of all the plans previewed on the same ownership bytes, none applies once any event has moved the ownership. */
  lemma AtMostOneApplies(root: Root, d: Disk, events: seq<Event>, more: seq<Event>, p: Plan, before: Bytes,
                         approved: PlanID, started: int, finished: int, writes: nat)
    requires Good(root, d) && AllAllowed(events) && AllAllowed(more)
    requires OwnerBytes(d) == Some(before) && OwnerBytes(Played(root, d, events)) != Some(before)
    requires Read(OWNER_PATH, before) in p.inputs
    ensures var d' := Played(root, Played(root, d, events), more);
      Stepped(root, d', Start(p, approved, started, finished, writes)) == d'
  {
    hide Played, OwnerOf, OwnerBytes, Unfinished, AllAllowed, Rank, Stepped;
    var d' := Played(root, Played(root, d, events), more);
    BytesNeverReturn(root, d, events, more);
    RunAdvances(root, d, events);
    RunAdvances(root, Played(root, d, events), more);
    StalePlanIsRefused(root, d', p, before, approved, started, finished, writes);
  }

  /** An actor whose generation the ownership has passed is never accepted again. */
  lemma OldActorsStayOut(root: Root, d: Disk, events: seq<Event>, actor: Actor)
    requires Good(root, d) && AllAllowed(events) && RankAt(d) > 2 * actor.generation
    ensures var o := OwnerOf(Played(root, d, events).files); o.Some? && !ValidActiveActor(o.value, actor)
  {
    hide Played, OwnerOf, OwnerBytes, Unfinished, AllAllowed, ValidActiveActor, Rank, ValidOwnership;
    RunAdvances(root, d, events);
    OldActorsAreFenced(OwnerOf(Played(root, d, events).files).value, actor);
  }

  // ----- Fencing -----

  /** The ownership on disk is ACTIVE with exactly the tuple the plan was made for. */
  ghost predicate UnderClaimOf(p: Plan, files: Files) {
    && p.metadata.ownershipGeneration <= MAX_UINT64 && OwnerOf(files).Some?
    && ValidActiveActor(OwnerOf(files).value,
         Actor(p.metadata.actorWorkerID, p.metadata.actorSessionID, p.metadata.ownershipGeneration))
  }

  lemma BoundOwnerIsRead(files: Files, inputs: seq<Input>, before: Bytes)
    requires InputsHold(files, inputs, {}) && Read(OWNER_PATH, before) in inputs
    ensures ReadFile(files, OWNER_PATH) == Some(before)
  {
    var k :| 0 <= k < |inputs| && inputs[k] == Read(OWNER_PATH, before);
    assert InputHolds(files, inputs[k]);
  }

  lemma ClaimAtOrigin(t: Txn, files: Files)
    requires Allowed(t.plan) && InputsHold(t.origin, t.plan.inputs, {}) && CONTEXT_PATH in ChangePaths(t.plan.changes)
    requires ReadFile(files, OWNER_PATH) == ReadFile(t.origin, OWNER_PATH)
    ensures UnderClaimOf(t.plan, files)
  {
    hide InputsHold, KeepsOwner, MovesOwner, ChangePaths, Decode, ValidActiveActor;
    var before :| Fenced(t.plan, before);
    BoundOwnerIsRead(t.origin, t.plan.inputs, before);
  }

  lemma UntouchedContext(t: Txn, files: Files, files': Files)
    requires Undisturbed(t, files) && Undisturbed(t, files')
    ensures CONTEXT_PATH !in ChangePaths(t.plan.changes) ==> ReadFile(files, CONTEXT_PATH) == ReadFile(files', CONTEXT_PATH)
  {
    hide ChangePaths;
    assert CONTEXT_PATH !in ChangePaths(t.plan.changes) ==> Get(files, CONTEXT_PATH) == Get(files', CONTEXT_PATH);
  }

  lemma SoundInputs(t: Txn)
    requires Sound(t)
    ensures InputsHold(t.origin, t.plan.inputs, {})
  {
  }

  /** Apply changes the context only while the ownership is the claim its plan was made for. */
  lemma StartIsFenced(t: Txn, files': Files)
    requires Sound(t) && Allowed(t.plan) && NAMESPACE in t.origin && Framed(t, files')
    requires ReadFile(files', CONTEXT_PATH) != ReadFile(t.origin, CONTEXT_PATH)
    ensures UnderClaimOf(t.plan, t.origin)
  {
    hide Sound, Framed, Allowed, ChangePaths, UnderClaimOf;
    FramedIsUndisturbed(t, files');
    assert Undisturbed(t, t.origin);
    UntouchedContext(t, t.origin, files');
    SoundInputs(t);
    ClaimAtOrigin(t, t.origin);
  }

  /** While a transaction may still change the context, the ownership file is as it was when the plan was checked. */
  lemma OwnerStillOriginal(t: Txn, files: Files, files': Files, k: nat)
    requires Sound(t) && Allowed(t.plan) && NAMESPACE in t.origin
    requires EitherWay(t, files) && Undisturbed(t, files) && AtPrefix(t, files, k)
    requires EitherWay(t, files') && Undisturbed(t, files') && (AllAfterState(t, files) ==> AllAfterState(t, files'))
    requires ReadFile(files', CONTEXT_PATH) != ReadFile(files, CONTEXT_PATH)
    ensures CONTEXT_PATH in ChangePaths(t.plan.changes)
    ensures ReadFile(files, OWNER_PATH) == ReadFile(t.origin, OWNER_PATH)
  {
    hide WellFormed, Decode, MovesOwner, ValidOwnership, Look, BeforeState, AfterState, ChangePaths, EncodablePlan,
      InputsHold, ValidJournal, StagedJournal, Fenced;
    UntouchedContext(t, files, files');
    if KeepsOwner(t.plan) {
      assert OWNER_PATH !in ChangePaths(t.plan.changes);
      assert Get(files, OWNER_PATH) == Get(t.origin, OWNER_PATH);
    } else {
      var before, current, next :| MovesOwner(t.plan, before, current, next);
      MovesOwnerFacts(t.plan, before, current, next);
      var c := t.plan.changes[t.Size() - 1];
      assert SoundChange(t, c);
      LookReads(t.origin, OWNER_PATH, before);
      if Look(files, OWNER_PATH) == AfterState(c) {
        assert FileState(HashBytes(before)) != FileState(HashBytes(c.content));
        assert k == t.Size();
        ContextSettled(t, files, files');
      } else {
        LookReads(files, OWNER_PATH, before);
      }
    }
  }

  /** With every change published on both sides, the context reads the same. */
  lemma ContextSettled(t: Txn, files: Files, files': Files)
    requires Sound(t) && AllAfterState(t, files) && AllAfterState(t, files') && Undisturbed(t, files)
    requires Undisturbed(t, files')
    ensures ReadFile(files, CONTEXT_PATH) == ReadFile(files', CONTEXT_PATH)
  {
    hide Sound, AfterState;
    if CONTEXT_PATH in ChangePaths(t.plan.changes) {
      var i := ChangePathIndex(t.plan.changes, CONTEXT_PATH);
      SameLookSameRead(files, files', CONTEXT_PATH);
    } else {
      assert Get(files, CONTEXT_PATH) == Get(files', CONTEXT_PATH);
    }
  }

  lemma SameLookSameRead(files: Files, files': Files, path: string)
    requires Look(files, path) == Look(files', path)
    ensures ReadFile(files, path) == ReadFile(files', path)
  {
  }

  /** The plan behind an event: its own, or the one of the transaction it repairs. */
  ghost predicate PlanBehind(root: Root, d: Disk, e: Event, p: Plan) {
    match e
    case Start(plan, _, _, _, _) => p == plan && d.pointer.None?
    case Repair(_) => exists t: Txn :: t.root == root && Unfinished(t, d) && t.plan == p
  }

  lemma RepairIsFenced(root: Root, d: Disk, t: Txn, a: Attempt)
    requires Good(root, d) && t.root == root && Unfinished(t, d) && a.action in {Rollback, Continue}
    requires ReadFile(Stepped(root, d, Repair(a)).files, CONTEXT_PATH) != ReadFile(d.files, CONTEXT_PATH)
    ensures UnderClaimOf(t.plan, d.files)
  {
    hide Sound, Live, EitherWay, Framed, AtPrefix, AllAfterState, AllBeforeState, Attempted, OwnerOf, Allowed,
      Foreseen, Undisturbed, Unfinished,
      Offers, Unobstructed, NoDirectoryMade, Progressed, RecoveryEnds, ReceiptAccepted, ReadFile, UnderClaimOf, ChangePaths;
    var d' := Stepped(root, d, Repair(a));
    var k := UnfinishedFacts(t, d);
    var k' := RecoveryKeeps(t, d, a, k, true);
    FinalAfterOne(t, d, a);
    EndSides(t, d, a.action, Attempted(root, d, a));
    FramedIsUndisturbed(t, d.files);
    FramedIsUndisturbed(t, d'.files);
    OwnerStillOriginal(t, d.files, d'.files, k);
    SoundInputs(t);
    ClaimAtOrigin(t, d.files);
  }

  lemma StartChangesUnderClaim(root: Root, d: Disk, plan: Plan, approved: PlanID, started: int, finished: int,
                               writes: nat)
    requires Good(root, d) && d.pointer.None? && Allowed(plan)
    requires ReadFile(Stepped(root, d, Start(plan, approved, started, finished, writes)).files, CONTEXT_PATH) != ReadFile(d.files, CONTEXT_PATH)
    ensures UnderClaimOf(plan, d.files)
  {
    var t, m := TxnOf(root, d.files, plan, started), Machine(d, writes);
    var r := ApplyRun(root, m, plan, approved, started, finished);
    hide ApplyRun, Sound, Live, Framed, EitherWay, AllAfterState, AtPrefix, OwnerOf, Allowed, StagedFiles,
      StagedJournal, Foreseen, LabelsTrue, ReadFile,
      UnderClaimOf, Unfinished;
    AllowedFacts(plan);
    ApplyStopsSafely(root, m, plan, approved, started, finished);
    StagedContext(d.files);
    if r.m.disk.pointer.Some? || (r.Go? && plan.changes != []) {
      StartIsFenced(t, r.m.disk.files);
    }
  }

  lemma StagedContext(files: Files)
    requires NAMESPACE in files
    ensures ReadFile(StagedFiles(files), CONTEXT_PATH) == ReadFile(files, CONTEXT_PATH)
  {
    ProtocolPathsDiffer();
    StagedElsewhere(files, CONTEXT_PATH);
    assert Get(StagedFiles(files), CONTEXT_PATH) == Get(files, CONTEXT_PATH);
  }

  /** Fencing: whatever event changes CONTEXT.md, be it a sync, a handoff, a continue or a rollback, cut off or not,
      the ownership on disk at that moment is ACTIVE with exactly the worker, session and generation of its plan. */
  lemma ContextChangesUnderClaim(root: Root, d: Disk, e: Event)
    requires Good(root, d) && AllowedEvent(e)
    requires ReadFile(Stepped(root, d, e).files, CONTEXT_PATH) != ReadFile(d.files, CONTEXT_PATH)
    ensures exists p :: PlanBehind(root, d, e, p) && UnderClaimOf(p, d.files)
  {
    hide Stepped, Unfinished, OwnerOf, Allowed, UnderClaimOf, ReadFile;
    match e {
      case Start(plan, approved, started, finished, writes) =>
        if d.pointer.Some? {
          LiveRefusesStart(root, d, plan, approved, started, finished, writes);
          assert false;
        } else {
          StartChangesUnderClaim(root, d, plan, approved, started, finished, writes);
          assert PlanBehind(root, d, e, plan);
        }
      case Repair(a) =>
        if d.pointer.Some? {
          var t: Txn :| t.root == root && Unfinished(t, d);
          RepairIsFenced(root, d, t, a);
          assert PlanBehind(root, d, e, t.plan);
        } else {
          NothingToRepair(root, d, a);
          assert false;
        }
    }
  }
}
