/** Concurrent Apply calls on one workspace, write by write. A call takes the engine's lock, then makes its writes one
    at a time while other calls try theirs, and leaves at any of them. Whatever the schedule, the disk is that of the
    calls run one after the other in lock order, each cut off where it left. */
module Interleaving {
  import opened Wrappers
  import opened Records
  import opened Transactions
  import opened Engine
  import opened Invariants
  import opened Runs
  import opened Ownerships
  import opened OwnershipCodec
  import opened Lifecycle
  import opened OwnershipRuns
  import opened ApplyProofs
  import opened Budgets

  /** Where one call stands. A holder has made `writes` writes on the disk it found, the lock taken. */
  datatype Stage = Waiting | Holding(found: Disk, writes: nat) | Returned

  datatype Call = Call(plan: Plan, approved: PlanID, started: int, finished: int, stage: Stage)

  /** The shared disk and the calls. log and moved are history: which calls have left, each after which cut, and whose
      writes have changed the ownership file. */
  datatype State = State(disk: Disk, calls: seq<Call>, log: seq<Event>, moved: set<nat>)

  datatype Move = TakeLock | MakeWrite | Leave

  /** The disk after the first writes of a call that found this disk and took the lock. */
  function Written(root: Root, c: Call, found: Disk, writes: nat): Disk {
    ApplyBody(root, Machine(found.(locked := true), writes), c.plan, c.started, c.finished).m.disk
  }

  function WithStage(s: State, p: nat, stage: Stage): State
    requires p < |s.calls|
  {
    s.(calls := s.calls[p := s.calls[p].(stage := stage)])
  }

  function AsEvent(c: Call, writes: nat): Event {
    Start(c.plan, c.approved, c.started, c.finished, writes)
  }

  /** One move of one call; a move that is not its next does nothing. Taking the lock is Apply's approval check and
      the engine's AcquireLock on the shared disk; leaving is the deferred unlock, due at the end and at any interruption. */
  function Next(root: Root, s: State, p: nat, move: Move): State {
    if p >= |s.calls| then s
    else
      var c := s.calls[p];
      match move
      case TakeLock =>
        if !c.stage.Waiting? then s
        else if c.approved == NoPlanID || c.approved != c.plan.id || c.plan.workspace != root.path || NAMESPACE !in s.disk.files then
          WithStage(s, p, Returned)
        else
          var r := AcquireLock(Machine(s.disk, 1), c.plan.operation == "purge-abort");
          if r.Halt? then WithStage(s, p, Returned).(disk := r.m.disk)
          else WithStage(s, p, Holding(s.disk, 0)).(disk := Written(root, c, s.disk, 0))
      case MakeWrite =>
        if !c.stage.Holding? then s
        else
          var disk := Written(root, c, c.stage.found, c.stage.writes + 1);
          WithStage(s, p, Holding(c.stage.found, c.stage.writes + 1)).(
            disk := disk, moved := if OwnerBytes(disk) != OwnerBytes(c.stage.found) then s.moved + {p} else s.moved)
      case Leave =>
        if !c.stage.Holding? then s
        else
          WithStage(s, p, Returned).(disk := s.disk.(locked := false), log := s.log + [AsEvent(c, c.stage.writes + 1)])
  }

  function Scheduled(root: Root, s: State, schedule: seq<(nat, Move)>): State
    decreases |schedule|
  {
    if schedule == [] then s else Scheduled(root, Next(root, s, schedule[0].0, schedule[0].1), schedule[1..])
  }

  // ----- One holder -----

  /** What taking the lock found: the call is approved and nothing stands in its way. */
  predicate Admitted(root: Root, c: Call, found: Disk) {
    && c.approved == c.plan.id != NoPlanID && c.plan.workspace == root.path
    && NAMESPACE in found.files && found.files[NAMESPACE].Directory? && !found.locked && found.pointer.None?
    && (c.plan.operation == "purge-abort" || PURGE_MARKER !in found.files)
  }

  lemma AdmissionIsTested(root: Root, c: Call, d: Disk)
    requires c.approved == c.plan.id != NoPlanID && c.plan.workspace == root.path && NAMESPACE in d.files
    ensures var r := AcquireLock(Machine(d, 1), c.plan.operation == "purge-abort");
      && (r.Go? <==> Admitted(root, c, d))
      && (r.Halt? ==> r.m.disk == d)
  {
  }

  /** A holder that leaves after some writes has done what Apply does with that budget. */
  lemma LeavingIsApply(root: Root, c: Call, found: Disk, writes: nat)
    requires Admitted(root, c, found)
    ensures Written(root, c, found, writes).locked
    ensures Written(root, c, found, writes).(locked := false) == Stepped(root, found, AsEvent(c, writes + 1))
  {
    hide ApplyBody;
    BodyKeepsLock(root, Machine(found.(locked := true), writes), c.plan, c.started, c.finished);
  }

  /** While it writes, the holder moves the ownership one transition at most. */
  lemma WritesAdvance(root: Root, c: Call, found: Disk, writes: nat)
    requires Admitted(root, c, found) && Good(root, found) && Allowed(c.plan)
    ensures Good(root, Written(root, c, found, writes).(locked := false))
    ensures Advances(found, Written(root, c, found, writes))
  {
    hide Stepped, Written, OwnerOf, Allowed, Unfinished, Admitted;
    LeavingIsApply(root, c, found, writes);
    EventAdvances(root, found, AsEvent(c, writes + 1));
  }

  /** Plans bind the ownership bytes they were made for; one that has changed the ownership found exactly those. */
  lemma MoverFoundItsBytes(root: Root, c: Call, found: Disk, writes: nat, before: Bytes)
    requires Admitted(root, c, found) && OwnerBytes(Written(root, c, found, writes)) != OwnerBytes(found)
    requires Read(OWNER_PATH, before) in c.plan.inputs
    ensures OwnerBytes(found) == Some(before)
  {
    hide Stepped, Written;
    LeavingIsApply(root, c, found, writes);
    assert OwnerBytes(found) != Some(before) ==> Written(root, c, found, writes).(locked := false) == found by {
      if OwnerBytes(found) != Some(before) {
        StalePlanIsRefused(root, found, c.plan, before, c.approved, c.started, c.finished, writes + 1);
      }
    }
  }

  /** Of two looks at one transaction, the earlier already with a new owner, the later shows the same owner. */
  lemma NoSecondMove(t: Txn, d: Disk, d1: Disk, d2: Disk, k: nat, k': nat)
    requires Sound(t) && Allowed(t.plan) && Undisturbed(t, d1.files) && Undisturbed(t, d2.files)
    requires k <= k' && AtPrefix(t, d1.files, k) && AtPrefix(t, d2.files, k')
    requires Advances(d, d1) && Advances(d, d2) && OwnerBytes(d1) != OwnerBytes(d)
    ensures OwnerBytes(d2) == OwnerBytes(d1)
  {
    hide Allowed, OwnerOf, Sound, AtPrefix, EitherWay, AllAfterState, Undisturbed, Rank, ReadFile;
    PrefixIsEitherWay(t, d1.files, k);
    PrefixIsEitherWay(t, d2.files, k');
    SizeIsPositive(t);
    if AllAfterState(t, d1.files) {
      LaterIsAfter(t, d1.files, d2.files, k, k');
    }
    OwnerMovesWithin(t, d1.files, d2.files, k);
    SameBytesSameRank(d, d2);
  }

  /** Once its writes have changed the ownership, the holder's later ones leave it alone. */
  lemma OwnerMovesOnce(root: Root, c: Call, found: Disk, writes: nat, next: nat)
    requires Admitted(root, c, found) && Good(root, found) && Allowed(c.plan) && next == writes + 1
    requires OwnerBytes(Written(root, c, found, writes)) != OwnerBytes(found)
    ensures OwnerBytes(Written(root, c, found, next)) == OwnerBytes(Written(root, c, found, writes))
  {
    var t, m := TxnOf(root, found.files, c.plan, c.started), Machine(found.(locked := true), writes);
    hide Allowed, OwnerOf, ApplyBody, StagedJournal, StagedFiles, ProperTree, WellFormed, Sound, AtPrefix,
      Foreseen, Unfinished, Undisturbed, Advances, ReadFile, Good;
    AllowedFacts(c.plan);
    NamespaceIsProper(found.files);
    var k, k' := BodyGrows(t, m, c.started, c.finished);
    WritesAdvance(root, c, found, writes);
    WritesAdvance(root, c, found, next);
    StagedOwner(found.files);
    WrittenSides(t, m, c.started, c.finished);
    WrittenSides(t, More(m), c.started, c.finished);
    NoSecondMove(t, found, Written(root, c, found, writes), Written(root, c, found, next), k, k');
  }

  lemma NamespaceIsProper(files: Files)
    requires NAMESPACE in files
    ensures ProperTree(files)
  {
  }

  lemma StagedOwner(files: Files)
    requires NAMESPACE in files
    ensures ReadFile(StagedFiles(files), OWNER_PATH) == ReadFile(files, OWNER_PATH)
  {
    ProtocolPathsDiffer();
    StagedElsewhere(files, OWNER_PATH);
    assert Get(StagedFiles(files), OWNER_PATH) == Get(files, OWNER_PATH);
  }

  lemma StagedIsUndisturbed(t: Txn)
    requires NAMESPACE in t.origin
    ensures Undisturbed(t, t.origin) && Undisturbed(t, StagedFiles(t.origin))
  {
    ProtocolPathsDiffer();
    StagedElsewhere(t.origin, OWNER_PATH);
    StagedElsewhere(t.origin, CONTEXT_PATH);
    StagedElsewhere(t.origin, NAMESPACE);
  }

  lemma PrefixIsEitherWay(t: Txn, files: Files, k: nat)
    requires AtPrefix(t, files, k)
    ensures EitherWay(t, files)
  {
  }

  /** Wherever the holder stands, the protocol's files outside its plan are as it found them. */
  lemma WrittenSides(t: Txn, m: Machine, started: int, finished: int)
    requires t == TxnOf(t.root, m.disk.files, t.plan, started) && Allowed(t.plan) && NAMESPACE in t.origin
    requires ProperTree(t.origin) && WellFormed(t.plan) && t.plan.workspace == t.root.path && m.disk.pointer.None?
    ensures Undisturbed(t, ApplyBody(t.root, m, t.plan, started, finished).m.disk.files)
  {
    hide Allowed, ApplyBody, StagedJournal, StagedFiles, ProperTree, WellFormed, Sound, Framed, Undisturbed, EitherWay,
      Live, AllAfterState, LabelsTrue, Foreseen;
    BodyOutcome(t, m, started, finished);
    StagedIsUndisturbed(t);
    var files := ApplyBody(t.root, m, t.plan, started, finished).m.disk.files;
    if Framed(t, files) {
      FramedIsUndisturbed(t, files);
    }
  }

  /** A later prefix leaves nothing before that was after. */
  lemma LaterIsAfter(t: Txn, files: Files, files': Files, k: nat, k': nat)
    requires k <= k' && AtPrefix(t, files, k) && AtPrefix(t, files', k') && AllAfterState(t, files)
    ensures AllAfterState(t, files')
  {
    hide Look, AfterState, BeforeState;
  }

  // ----- Any schedule -----

  /** The disk of the calls that have left, run one after the other. */
  function Served(root: Root, d: Disk, s: State): Disk {
    Played(root, d, s.log)
  }

  predicate IsHolder(s: State, p: nat) {
    p < |s.calls| && s.calls[p].stage.Holding?
  }

  /** The holder works on the disk of those that left before it. */
  ghost predicate Serves(root: Root, d: Disk, s: State, p: nat)
    requires IsHolder(s, p)
  {
    var c := s.calls[p];
    && c.stage.found == Served(root, d, s) && Admitted(root, c, c.stage.found)
    && s.disk == Written(root, c, c.stage.found, c.stage.writes)
  }

  /** The shared disk is the serial one: that of the calls that left, or of the only holder's writes after them. */
  ghost predicate Serial(root: Root, d: Disk, s: State) {
    && AllAllowed(s.log)
    && (forall p :: 0 <= p < |s.calls| ==> Allowed(s.calls[p].plan))
    && (forall p, r :: IsHolder(s, p) && IsHolder(s, r) ==> p == r)
    && (forall p :: IsHolder(s, p) ==> Serves(root, d, s, p))
    && ((forall p :: !IsHolder(s, p)) ==> s.disk == Served(root, d, s))
  }

  /** The ownership has passed every document the plan binds. */
  ghost predicate Outrun(p: Plan, d: Disk) {
    && OwnerOf(d.files).Some?
    && forall before :: Read(OWNER_PATH, before) in p.inputs ==>
         Decode(before).Ok? && Rank(Decode(before).value) < RankAt(d)
  }

  /** A mover is the holder, its writes showing, or has left the ownership past all that its plan binds. */
  ghost predicate Moved(root: Root, d: Disk, s: State, p: nat)
    requires p < |s.calls|
  {
    match s.calls[p].stage
    case Waiting => false
    case Holding(found, _) => OwnerBytes(s.disk) != OwnerBytes(found)
    case Returned => Outrun(s.calls[p].plan, Served(root, d, s))
  }

  ghost predicate Binds(s: State, p: nat, before: Bytes)
    requires p < |s.calls|
  {
    Read(OWNER_PATH, before) in s.calls[p].plan.inputs
  }

  /** Movers are as described, and no two of them bind the same document. */
  ghost predicate Exclusive(root: Root, d: Disk, s: State) {
    && (forall p :: p in s.moved ==> p < |s.calls| && Moved(root, d, s, p))
    && forall p, r, before :: p in s.moved && r in s.moved && p != r && Binds(s, p, before) ==> !Binds(s, r, before)
  }

  /** Before the first move. */
  ghost predicate Initial(root: Root, s: State) {
    && Good(root, s.disk) && s.log == [] && s.moved == {}
    && forall p :: 0 <= p < |s.calls| ==> s.calls[p].stage.Waiting? && Allowed(s.calls[p].plan)
  }

  lemma InitialIsSerial(root: Root, s: State)
    requires Initial(root, s)
    ensures Serial(root, s.disk, s) && Exclusive(root, s.disk, s)
  {
    hide Good, Allowed;
  }

  lemma {:induction false} PlayedGrows(root: Root, d: Disk, events: seq<Event>, e: Event)
    ensures Played(root, d, events + [e]) == Stepped(root, Played(root, d, events), e)
    decreases |events|
  {
    hide Stepped;
    if events == [] {
      assert ([] + [e])[1..] == [];
      assert Played(root, Stepped(root, d, e), []) == Stepped(root, d, e);
    } else {
      assert (events + [e])[1..] == events[1..] + [e];
      PlayedGrows(root, Stepped(root, d, events[0]), events[1..], e);
    }
  }

  lemma ServedIsGood(root: Root, d: Disk, s: State)
    requires Good(root, d) && Serial(root, d, s)
    ensures Good(root, Served(root, d, s))
  {
    hide Good, Stepped, Written, Admitted, OwnerOf, Allowed;
    RunAdvances(root, d, s.log);
  }

  lemma HolderIsLocked(root: Root, d: Disk, s: State, p: nat)
    requires Serial(root, d, s) && IsHolder(s, p)
    ensures s.disk.locked
  {
    hide Stepped, Written, Served, Allowed;
    assert Serves(root, d, s, p);
    LeavingIsApply(root, s.calls[p], s.calls[p].stage.found, s.calls[p].stage.writes);
  }

  /** A call that returns without the lock leaves the others where they are. */
  lemma TurnedAwayKeeps(root: Root, d: Disk, s: State, p: nat)
    requires Serial(root, d, s) && p < |s.calls| && !IsHolder(s, p)
    ensures Serial(root, d, WithStage(s, p, Returned))
  {
    hide Written, Admitted, Allowed, Played;
    var s' := WithStage(s, p, Returned);
    OthersAreAsBefore(s, s', p);
    OthersAreAsBefore(s', s, p);
    forall q: nat | IsHolder(s', q)
      ensures Serves(root, d, s', q)
    {
      assert Serves(root, d, s, q);
    }
  }

  lemma LetInKeeps(root: Root, d: Disk, s: State, p: nat)
    requires Serial(root, d, s) && p < |s.calls| && (forall q :: !IsHolder(s, q)) && Admitted(root, s.calls[p], s.disk)
    ensures Serial(root, d, WithStage(s, p, Holding(s.disk, 0)).(disk := Written(root, s.calls[p], s.disk, 0)))
  {
    hide ApplyBody, Allowed, Played;
    var s' := WithStage(s, p, Holding(s.disk, 0)).(disk := Written(root, s.calls[p], s.disk, 0));
    OthersAreAsBefore(s, s', p);
    assert IsHolder(s', p) && Serves(root, d, s', p);
  }

  /** Only p's stage has changed. */
  lemma OthersAreAsBefore(s: State, s': State, p: nat)
    requires p < |s.calls| == |s'.calls| && s'.calls == s.calls[p := s'.calls[p]]
    ensures forall q :: IsHolder(s', q) && q != p ==> IsHolder(s, q)
  {
    forall q: nat | IsHolder(s', q) && q != p
      ensures IsHolder(s, q)
    {
      assert s'.calls[q] == s.calls[q];
    }
  }

  lemma TakingKeeps(root: Root, d: Disk, s: State, p: nat)
    requires Serial(root, d, s) && p < |s.calls| && s.calls[p].stage.Waiting?
    ensures Serial(root, d, Next(root, s, p, TakeLock))
  {
    hide Serial, Written, Allowed, Played, AcquireLock;
    var c := s.calls[p];
    TurnedAwayKeeps(root, d, s, p);
    if c.approved == c.plan.id != NoPlanID && c.plan.workspace == root.path && NAMESPACE in s.disk.files {
      AdmissionIsTested(root, c, s.disk);
      if Admitted(root, c, s.disk) {
        forall q: nat
          ensures !IsHolder(s, q)
        {
          if IsHolder(s, q) {
            HolderIsLocked(root, d, s, q);
          }
        }
        LetInKeeps(root, d, s, p);
      }
    }
  }

  lemma WritingKeeps(root: Root, d: Disk, s: State, p: nat)
    requires Serial(root, d, s) && IsHolder(s, p)
    ensures Serial(root, d, Next(root, s, p, MakeWrite))
  {
    hide ApplyBody, Allowed, Played, OwnerBytes;
    var s' := Next(root, s, p, MakeWrite);
    assert Serves(root, d, s, p);
    OthersAreAsBefore(s, s', p);
    assert IsHolder(s', p) && Serves(root, d, s', p);
  }

  lemma LeavingKeeps(root: Root, d: Disk, s: State, p: nat)
    requires Serial(root, d, s) && IsHolder(s, p)
    ensures Serial(root, d, Next(root, s, p, Leave))
    ensures var c := s.calls[p];
      Served(root, d, Next(root, s, p, Leave)) == Stepped(root, Served(root, d, s), AsEvent(c, c.stage.writes + 1))
  {
    hide Written, Allowed, Played, Admitted, Stepped;
    var s', c := Next(root, s, p, Leave), s.calls[p];
    assert Serves(root, d, s, p);
    LeavingIsApply(root, c, c.stage.found, c.stage.writes);
    PlayedGrows(root, d, s.log, AsEvent(c, c.stage.writes + 1));
    OthersAreAsBefore(s, s', p);
    assert AllowedEvent(AsEvent(c, c.stage.writes + 1));
  }

  lemma NextKeepsSerial(root: Root, d: Disk, s: State, p: nat, move: Move)
    requires Serial(root, d, s)
    ensures Serial(root, d, Next(root, s, p, move))
  {
    hide Serial, Written, AcquireLock, OwnerBytes;
    if p < |s.calls| && s.calls[p].stage.Waiting? {
      TakingKeeps(root, d, s, p);
    }
    if IsHolder(s, p) {
      WritingKeeps(root, d, s, p);
      LeavingKeeps(root, d, s, p);
    }
  }

  // ----- Who moved the ownership -----

  /** The ownership is where it was, to the byte, or further on. */
  ghost predicate Forward(d: Disk, d': Disk) {
    && OwnerOf(d.files).Some? && OwnerOf(d'.files).Some? && RankAt(d) <= RankAt(d')
    && (RankAt(d) == RankAt(d') ==> OwnerBytes(d) == OwnerBytes(d'))
  }

  lemma AdvancesIsForward(d: Disk, d': Disk)
    requires Advances(d, d')
    ensures Forward(d, d')
  {
    hide Decode, Rank, OwnerBytes, OwnerOf;
    SameBytesSameRank(d, d');
  }

  lemma HolderFacts(root: Root, d: Disk, s: State, p: nat)
    requires Good(root, d) && Serial(root, d, s) && IsHolder(s, p)
    ensures var c := s.calls[p];
      && c.stage.found == Served(root, d, s) && Admitted(root, c, c.stage.found) && Allowed(c.plan)
      && Good(root, c.stage.found) && s.disk == Written(root, c, c.stage.found, c.stage.writes)
      && Advances(c.stage.found, s.disk)
  {
    hide Written, Allowed, Served, Good, Admitted;
    assert Serves(root, d, s, p);
    ServedIsGood(root, d, s);
    WritesAdvance(root, s.calls[p], s.calls[p].stage.found, s.calls[p].stage.writes);
  }

  /** The document is the one the calls that left have left. */
  ghost predicate Current(root: Root, d: Disk, s: State, before: Bytes) {
    && OwnerOf(Served(root, d, s).files).Some? && Decode(before).Ok?
    && Rank(Decode(before).value) == RankAt(Served(root, d, s))
  }

  /** The document a mover binds is the one it found. */
  lemma BoundByHolder(root: Root, d: Disk, s: State, p: nat, before: Bytes)
    requires Good(root, d) && Serial(root, d, s) && IsHolder(s, p) && Binds(s, p, before)
    requires OwnerBytes(s.disk) != OwnerBytes(s.calls[p].stage.found)
    ensures Current(root, d, s, before) && OwnerOf(s.disk.files).Some? && RankAt(s.disk) > RankAt(Served(root, d, s))
  {
    hide Written, Allowed, Served, Good, Admitted, Decode, Rank, Serial;
    HolderFacts(root, d, s, p);
    MoverFoundItsBytes(root, s.calls[p], s.calls[p].stage.found, s.calls[p].stage.writes, before);
  }

  /** The shared disk has an owner, the one the calls that left set up or the next. */
  lemma DiskIsOwned(root: Root, d: Disk, s: State)
    requires Good(root, d) && Serial(root, d, s)
    ensures Forward(Served(root, d, s), s.disk)
  {
    hide Written, Allowed, Played, Good, OwnerOf, OwnerBytes, Rank, Admitted;
    ServedIsGood(root, d, s);
    GoodIsOwned(root, Served(root, d, s));
    if p: nat :| IsHolder(s, p) {
      HolderFacts(root, d, s, p);
      AdvancesIsForward(s.calls[p].stage.found, s.disk);
    }
  }

  lemma GoodIsOwned(root: Root, d: Disk)
    requires Good(root, d)
    ensures OwnerOf(d.files).Some? && Forward(d, d)
  {
    hide OwnerOf, Rank, Unfinished;
  }

  lemma NobodyHolds(root: Root, d: Disk, s: State)
    requires Good(root, d) && Serial(root, d, s) && forall p :: !IsHolder(s, p)
    ensures s.disk == Served(root, d, s) && Good(root, s.disk)
  {
    hide Good, Written, Allowed, Played, Admitted;
    ServedIsGood(root, d, s);
  }

  lemma CallIsAllowed(root: Root, d: Disk, s: State, p: nat)
    requires Serial(root, d, s) && p < |s.calls|
    ensures Allowed(s.calls[p].plan)
  {
    hide Allowed, Played, Admitted, Written;
  }

  /** p is no mover, and the others' stages, the disk under their hands and the disk they left are the same. */
  lemma MoversAsBefore(root: Root, d: Disk, s: State, s': State, p: nat)
    requires Exclusive(root, d, s) && p < |s.calls| == |s'.calls| && s'.moved == s.moved && p !in s.moved
    requires forall q :: 0 <= q < |s.calls| && q != p ==> s'.calls[q] == s.calls[q]
    requires s'.disk == s.disk || forall q: nat :: q != p ==> !IsHolder(s, q)
    requires s'.log == s.log
    ensures Exclusive(root, d, s')
  {
    hide OwnerOf, Outrun, OwnerBytes, Played;
    forall q | q in s'.moved
      ensures q < |s'.calls| && Moved(root, d, s', q)
    {
      assert Moved(root, d, s, q) && (s'.disk == s.disk || !IsHolder(s, q));
    }
    forall q, r, before | q in s'.moved && r in s'.moved && q != r && Binds(s', q, before)
      ensures !Binds(s', r, before)
    {
      assert Binds(s, q, before);
      assert !Binds(s, r, before);
    }
  }

  lemma WaitingIsNoMover(root: Root, d: Disk, s: State, p: nat)
    requires Exclusive(root, d, s) && p < |s.calls| && s.calls[p].stage.Waiting?
    ensures p !in s.moved
  {
    hide Served, OwnerOf, Outrun, OwnerBytes;
    assert p in s.moved ==> Moved(root, d, s, p);
  }

  lemma TakingExcludes(root: Root, d: Disk, s: State, p: nat)
    requires Good(root, d) && Serial(root, d, s) && Exclusive(root, d, s) && p < |s.calls| && s.calls[p].stage.Waiting?
    ensures Exclusive(root, d, Next(root, s, p, TakeLock)) && Forward(s.disk, Next(root, s, p, TakeLock).disk)
  {
    hide Serial, Exclusive, Written, Allowed, Played, AcquireLock, Good, OwnerOf, Rank;
    var c, s' := s.calls[p], Next(root, s, p, TakeLock);
    WaitingIsNoMover(root, d, s, p);
    DiskIsOwned(root, d, s);
    if c.approved == c.plan.id != NoPlanID && c.plan.workspace == root.path && NAMESPACE in s.disk.files {
      AdmissionIsTested(root, c, s.disk);
      if Admitted(root, c, s.disk) {
        forall q: nat
          ensures !IsHolder(s, q)
        {
          if IsHolder(s, q) {
            HolderIsLocked(root, d, s, q);
          }
        }
        NobodyHolds(root, d, s);
        CallIsAllowed(root, d, s, p);
        WritesAdvance(root, c, s.disk, 0);
        AdvancesIsForward(s.disk, s'.disk);
      }
    }
    MoversAsBefore(root, d, s, s', p);
  }

  /** While p holds, every other mover has returned. */
  lemma ReturnedMover(root: Root, d: Disk, s: State, p: nat, q: nat)
    requires Serial(root, d, s) && Exclusive(root, d, s) && IsHolder(s, p) && q in s.moved && q != p
    ensures q < |s.calls| && s.calls[q].stage.Returned? && Outrun(s.calls[q].plan, Served(root, d, s))
  {
    hide Written, Allowed, Played, Outrun, OwnerBytes, Admitted;
    assert Moved(root, d, s, q);
    assert !IsHolder(s, q);
  }

  /** A document that the ownership has passed is not the one the holder found and changed. */
  lemma ApartFromHolder(root: Root, d: Disk, s: State, p: nat, q: nat, before: Bytes)
    requires Good(root, d) && Serial(root, d, s) && IsHolder(s, p) && q < |s.calls|
    requires OwnerBytes(s.disk) != OwnerBytes(s.calls[p].stage.found)
    requires Outrun(s.calls[q].plan, Served(root, d, s))
    ensures !(Binds(s, p, before) && Binds(s, q, before))
  {
    hide Written, Allowed, Served, Good, Admitted, Decode, Rank, Serial, OwnerOf, OwnerBytes;
    if Binds(s, p, before) {
      BoundByHolder(root, d, s, p, before);
    }
  }

  lemma WriteIsForward(root: Root, d: Disk, s: State, p: nat)
    requires Good(root, d) && Serial(root, d, s) && IsHolder(s, p)
    ensures var s', found := Next(root, s, p, MakeWrite), s.calls[p].stage.found;
      && Forward(s.disk, s'.disk)
      && (OwnerBytes(s.disk) != OwnerBytes(found) ==> OwnerBytes(s'.disk) != OwnerBytes(found))
  {
    hide Serial, Written, Allowed, Served, Good, Decode, Rank, Admitted, OwnerOf, OwnerBytes;
    var c, s' := s.calls[p], Next(root, s, p, MakeWrite);
    HolderFacts(root, d, s, p);
    WritesAdvance(root, c, c.stage.found, c.stage.writes + 1);
    if OwnerBytes(s.disk) != OwnerBytes(c.stage.found) {
      OwnerMovesOnce(root, c, c.stage.found, c.stage.writes, c.stage.writes + 1);
    }
    SameBytesSameRank(s.disk, s'.disk);
    SameBytesSameRank(c.stage.found, s.disk);
    SameBytesSameRank(c.stage.found, s'.disk);
  }

  /** A holder's write: it may become a mover, and then no mover before it is bound to the same document. */
  lemma WritingExcludes(root: Root, d: Disk, s: State, p: nat)
    requires Good(root, d) && Serial(root, d, s) && Exclusive(root, d, s) && IsHolder(s, p)
    ensures Exclusive(root, d, Next(root, s, p, MakeWrite))
  {
    hide Serial, Written, Allowed, Played, Good, OwnerOf, OwnerBytes, Rank, Decode, Admitted, Outrun, Forward;
    var s', found := Next(root, s, p, MakeWrite), s.calls[p].stage.found;
    WritingKeeps(root, d, s, p);
    WriteIsForward(root, d, s, p);
    assert p in s.moved ==> Moved(root, d, s, p);
    forall q | q in s'.moved
      ensures q < |s'.calls| && Moved(root, d, s', q)
      ensures q != p ==> q in s.moved && Outrun(s'.calls[q].plan, Served(root, d, s'))
    {
      if q != p {
        ReturnedMover(root, d, s, p, q);
      }
    }
    forall q, r, before | q in s'.moved && r in s'.moved && q != r && Binds(s', q, before)
      ensures !Binds(s', r, before)
    {
      if q == p {
        ApartFromHolder(root, d, s', p, r, before);
      } else if r == p {
        ApartFromHolder(root, d, s', p, q, before);
      } else {
        assert Binds(s, q, before) && !Binds(s, r, before);
      }
    }
  }

  lemma OutrunFurther(p: Plan, d: Disk, d': Disk)
    requires Outrun(p, d) && OwnerOf(d'.files).Some? && RankAt(d) <= RankAt(d')
    ensures Outrun(p, d')
  {
    hide Decode, OwnerOf, Rank;
  }

  /** A mover that leaves has left the ownership past everything its plan binds. */
  lemma LeavingOutruns(root: Root, d: Disk, s: State, p: nat)
    requires Good(root, d) && Serial(root, d, s) && IsHolder(s, p)
    requires OwnerBytes(s.disk) != OwnerBytes(s.calls[p].stage.found) && OwnerOf(s.disk.files).Some?
    ensures Outrun(s.calls[p].plan, s.disk)
  {
    hide Written, Allowed, Served, Good, Admitted, Decode, Rank, Serial, OwnerOf, OwnerBytes;
    forall before | Read(OWNER_PATH, before) in s.calls[p].plan.inputs
      ensures Decode(before).Ok? && Rank(Decode(before).value) < RankAt(s.disk)
    {
      assert Binds(s, p, before);
      BoundByHolder(root, d, s, p, before);
    }
  }

  lemma LeavingExcludes(root: Root, d: Disk, s: State, p: nat)
    requires Good(root, d) && Serial(root, d, s) && Exclusive(root, d, s) && IsHolder(s, p)
    ensures Exclusive(root, d, Next(root, s, p, Leave)) && Forward(s.disk, Next(root, s, p, Leave).disk)
  {
    hide Serial, Written, Allowed, Played, Good, ReadFile, OwnerOf, Rank, Decode, Admitted, Outrun, Stepped;
    var s' := Next(root, s, p, Leave);
    DiskIsOwned(root, d, s);
    LeavingKeeps(root, d, s, p);
    ServedIsDisk(root, d, s, p);
    if p in s.moved {
      assert Moved(root, d, s, p);
      LeavingOutruns(root, d, s, p);
      OutrunFurther(s.calls[p].plan, s.disk, s'.disk);
    }
    forall q | q in s'.moved
      ensures q < |s'.calls| && Moved(root, d, s', q)
    {
      if q != p {
        ReturnedMover(root, d, s, p, q);
        OutrunFurther(s.calls[q].plan, Served(root, d, s), s'.disk);
      }
    }
    forall q, r, before | q in s'.moved && r in s'.moved && q != r && Binds(s', q, before)
      ensures !Binds(s', r, before)
    {
      assert Binds(s, q, before) && !Binds(s, r, before);
    }
  }

  /** Once the holder has left, the shared disk is that of the calls that left. */
  lemma ServedIsDisk(root: Root, d: Disk, s: State, p: nat)
    requires Serial(root, d, s) && IsHolder(s, p)
    ensures var s' := Next(root, s, p, Leave); Served(root, d, s') == s'.disk
  {
    hide Written, Allowed, Played, Admitted, Stepped;
    assert Serves(root, d, s, p);
    var c := s.calls[p];
    LeavingIsApply(root, c, c.stage.found, c.stage.writes);
    PlayedGrows(root, d, s.log, AsEvent(c, c.stage.writes + 1));
  }

  lemma NextKeeps(root: Root, d: Disk, s: State, p: nat, move: Move)
    requires Good(root, d) && Serial(root, d, s) && Exclusive(root, d, s)
    ensures var s' := Next(root, s, p, move);
      Serial(root, d, s') && Exclusive(root, d, s') && Forward(s.disk, s'.disk)
  {
    hide Serial, Exclusive, Written, AcquireLock, OwnerBytes, Good, OwnerOf, Rank;
    NextKeepsSerial(root, d, s, p, move);
    DiskIsOwned(root, d, s);
    if p < |s.calls| && s.calls[p].stage.Waiting? {
      TakingExcludes(root, d, s, p);
    }
    if IsHolder(s, p) {
      WritingExcludes(root, d, s, p);
      WriteIsForward(root, d, s, p);
      LeavingExcludes(root, d, s, p);
    }
  }

  lemma ForwardChains(d: Disk, d1: Disk, d2: Disk)
    requires Forward(d, d1) && Forward(d1, d2)
    ensures Forward(d, d2)
  {
    hide OwnerOf, OwnerBytes, Rank;
  }

  /** Any schedule of any calls of allowed plans from a serial state on: the disk stays the serial one, and the ownership
      never goes back. */
  lemma {:induction false} ScheduleKeeps(root: Root, d: Disk, s: State, schedule: seq<(nat, Move)>)
    requires Good(root, d) && Serial(root, d, s) && Exclusive(root, d, s)
    ensures var s' := Scheduled(root, s, schedule);
      Serial(root, d, s') && Exclusive(root, d, s') && Forward(s.disk, s'.disk)
    decreases |schedule|
  {
    hide Serial, Exclusive, Next, Good, OwnerOf, OwnerBytes, Rank;
    if schedule == [] {
      DiskIsOwned(root, d, s);
    } else {
      var s1 := Next(root, s, schedule[0].0, schedule[0].1);
      NextKeeps(root, d, s, schedule[0].0, schedule[0].1);
      ScheduleKeeps(root, d, s1, schedule[1..]);
      ForwardChains(s.disk, s1.disk, Scheduled(root, s1, schedule[1..]).disk);
    }
  }

  /** The disk is that of Apply calls run one after the other in the order in which they left, each cut off there; while a
      call holds the lock, it is theirs and the writes it has made so far. */
  ghost predicate InLockOrder(root: Root, d: Disk, s: State) {
    && AllAllowed(s.log)
    && ((forall p :: !IsHolder(s, p)) ==> s.disk == Played(root, d, s.log))
    && forall p: nat :: IsHolder(s, p) ==> s.disk.locked && HolderIsLast(root, d, s, p)
  }

  ghost predicate HolderIsLast(root: Root, d: Disk, s: State, p: nat) {
    && IsHolder(s, p)
    && s.disk.(locked := false) == Played(root, d, s.log + [AsEvent(s.calls[p], s.calls[p].stage.writes + 1)])
  }

  lemma SerialIsInLockOrder(root: Root, d: Disk, s: State)
    requires Serial(root, d, s)
    ensures InLockOrder(root, d, s)
  {
    hide Stepped, Played, Written, Admitted, Allowed;
    forall p: nat | IsHolder(s, p)
      ensures s.disk.locked && HolderIsLast(root, d, s, p)
    {
      HolderIsLocked(root, d, s, p);
      ServedIsDisk(root, d, s, p);
    }
  }

  /** Whatever the schedule, the shared disk is that of the calls in lock order. */
  lemma SchedulesAreSerial(root: Root, s: State, schedule: seq<(nat, Move)>)
    requires Initial(root, s)
    ensures InLockOrder(root, s.disk, Scheduled(root, s, schedule))
    ensures Good(root, Played(root, s.disk, Scheduled(root, s, schedule).log))
  {
    hide Good, Scheduled, Serial, Exclusive, InLockOrder, Played;
    InitialIsSerial(root, s);
    ScheduleKeeps(root, s.disk, s, schedule);
    SerialIsInLockOrder(root, s.disk, Scheduled(root, s, schedule));
    ServedIsGood(root, s.disk, Scheduled(root, s, schedule));
  }

  /** In any interleaving the ownership only ever moves forward, and while it stands still its file does not change by a
      byte. */
  lemma OwnershipNeverGoesBack(root: Root, s: State, schedule: seq<(nat, Move)>, more: seq<(nat, Move)>)
    requires Initial(root, s)
    ensures Forward(Scheduled(root, s, schedule).disk, Scheduled(root, Scheduled(root, s, schedule), more).disk)
  {
    hide Good, Scheduled, Serial, Exclusive, Forward;
    InitialIsSerial(root, s);
    ScheduleKeeps(root, s.disk, s, schedule);
    ScheduleKeeps(root, s.disk, Scheduled(root, s, schedule), more);
  }

  /** Of any number of calls whose plans bind the same ownership document, the writes of one at most ever change the
      ownership, in whatever interleaving. */
  lemma AtMostOneIsPublished(root: Root, s: State, schedule: seq<(nat, Move)>, p: nat, r: nat, before: Bytes)
    requires Initial(root, s)
    requires var s' := Scheduled(root, s, schedule);
      && p in s'.moved && r in s'.moved
      && p < |s'.calls| && r < |s'.calls| && Binds(s', p, before) && Binds(s', r, before)
    ensures p == r
  {
    hide Good, Scheduled, Serial;
    InitialIsSerial(root, s);
    ScheduleKeeps(root, s.disk, s, schedule);
  }
}
