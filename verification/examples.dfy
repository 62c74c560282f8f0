/** One concrete workspace: the states the run theorems speak about exist. */
module Examples {
  import opened Wrappers
  import opened Records
  import opened Sorting
  import opened Planning
  import opened Transactions
  import opened Text
  import opened Timestamps
  import opened Ownerships
  import opened OwnershipCodec
  import opened Engine
  import opened Invariants
  import opened StagingProofs
  import opened ApplyProofs
  import opened RecoveryOutcomes
  import opened Lifecycle
  import opened OwnershipRuns

  const ROOT_PATH := "/w"

  function AnyRoot(): Root {
    Root(ROOT_PATH, (path: string) => true, (r: MigrationReceipt) => [])
  }

  const OWNER := Ownership(RELEASED, "w", "", 0, "a", UNIX_EPOCH, Some(UNIX_EPOCH), "p")

  lemma OwnerIsValid()
    ensures ValidOwnership(OWNER) && Seconds(OWNER.acquiredAt) != 0
  {
    TrimFacts("w");
    TrimFacts("a");
    TrimFacts("p");
    TrimFacts("");
    assert Trim("w") == "w" && Trim("a") == "a" && Trim("p") == "p" && Trim("") == "";
    hide Trim;
    assert |Lower("")| == 0;
    assert DaysBeforeYear(1970) == 719162;
    assert DaysBeforeMonth(1, 1970) == 0;
  }

  /** An initialised workspace whose ownership is free. */
  ghost function InitialFiles(): Files {
    map[NAMESPACE := Directory(PRIVATE_DIRECTORY_MODE), RECOVERY_ROOT := Directory(PRIVATE_DIRECTORY_MODE),
        OWNER_PATH := File(if Encode(OWNER).Some? then Encode(OWNER).value else [], PRIVATE_FILE_MODE)]
  }

  lemma InitialOwner()
    ensures OWNER_PATH in InitialFiles() && NAMESPACE in InitialFiles() && RECOVERY_ROOT in InitialFiles()
    ensures ReadFile(InitialFiles(), OWNER_PATH) == Encode(OWNER) && Encode(OWNER).Some?
    ensures OwnerOf(InitialFiles()) == Some(OWNER)
    ensures InitialFiles()[RECOVERY_ROOT].Directory? && InitialFiles()[NAMESPACE].Directory?
  {
    OwnerIsValid();
    hide ValidOwnership, Seconds, Decode, Encode, Normalized;
    DecodeUndoesEncode(OWNER);
    EncodeIsInjective(OWNER, OWNER);
    ProtocolPathsDiffer();
    assert |NAMESPACE| != |OWNER_PATH| && |NAMESPACE| != |RECOVERY_ROOT|;
  }

  /** Events can start from a good workspace. */
  lemma GoodWorkspaceExists()
    ensures Good(AnyRoot(), Disk(InitialFiles(), false, None, map[]))
  {
    hide OwnerOf;
    InitialOwner();
  }

  // ----- An acquisition, cut off right after the live pointer -----

  const REQUEST := AcquireRequest("w", "s", "a", "p", UNIX_EPOCH)
  const NEXT_OWNER := Ownership(ACTIVE, "w", "s", 1, "a", UNIX_EPOCH, None, "p")

  lemma NextOwner()
    ensures Acquire(OWNER, REQUEST) == Some(NEXT_OWNER) && Seconds(REQUEST.at) != 0 && ValidOwnership(NEXT_OWNER)
  {
    OwnerIsValid();
    TrimFacts("w");
    TrimFacts("s");
    TrimFacts("a");
    TrimFacts("p");
    assert Trim("w") == "w" && Trim("s") == "s" && Trim("a") == "a" && Trim("p") == "p";
    hide Trim, Seconds;
    assert |Lower("s")| == 1;
  }

  /** The plan the acquisition previews. */
  lemma AcquirePlan() returns (p: Plan)
    ensures PlanAcquire(AnyRoot(), Ready, InitialFiles(), REQUEST) == Some(p)
    ensures Encode(OWNER).Some? && Encode(NEXT_OWNER).Some? && |Encode(NEXT_OWNER).value| <= MAX_RECORD_BYTES
    ensures p.changes == [NewUpdateFile(OWNER_PATH, PRIVATE_FILE_MODE, HashBytes(Encode(OWNER).value), Encode(NEXT_OWNER).value)]
    ensures p.inputs == [Read(OWNER_PATH, Encode(OWNER).value)] && p.workspace == ROOT_PATH && p.operation == "acquire"
    ensures WellFormed(p) && Allowed(p) && p.metadata.migrationReceiptPath == ""
  {
    InitialOwner();
    NextOwner();
    DocumentIsScanned(NEXT_OWNER);
    AcquirePlanned();
    AcquireIsAllowed(AnyRoot(), Ready, InitialFiles(), REQUEST);
    hide ValidOwnership, Seconds, Decode, Encode, InitialFiles, Acquire, ScanFields, Gathered, OwnerOf, Allowed, PlanAcquire, NewPlan, WellFormed;
    var before := Encode(OWNER).value;
    var c := NewUpdateFile(OWNER_PATH, PRIVATE_FILE_MODE, HashBytes(before), Encode(NEXT_OWNER).value);
    var metadata := ActorMetadata(Actor("w", "s", 0), 1);
    OneChangePlan("acquire", ROOT_PATH, c, [Read(OWNER_PATH, before)], metadata);
    p := NewPlan("acquire", ROOT_PATH, [c], [Read(OWNER_PATH, before)], metadata);
    AllowedFacts(p);
    OperationOf("acquire", ROOT_PATH, [c], [Read(OWNER_PATH, before)], metadata);
  }

  lemma OperationOf(operation: string, workspace: string, changes: seq<Change>, inputs: seq<Input>, metadata: Metadata)
    ensures NewPlan(operation, workspace, changes, inputs, metadata).operation == operation
    ensures NewPlan(operation, workspace, changes, inputs, metadata).id != NoPlanID
  {
    hide Canonically, Sort, HashedAll;
  }

  lemma AcquirePlanned()
    ensures Encode(OWNER).Some? && Encode(NEXT_OWNER).Some?
    ensures PlanAcquire(AnyRoot(), Ready, InitialFiles(), REQUEST) == Some(NewPlan("acquire", ROOT_PATH,
      [NewUpdateFile(OWNER_PATH, PRIVATE_FILE_MODE, HashBytes(Encode(OWNER).value), Encode(NEXT_OWNER).value)],
      [Read(OWNER_PATH, Encode(OWNER).value)], ActorMetadata(Actor("w", "s", 0), 1)))
  {
    hide ValidOwnership, Seconds, Decode, Encode, InitialFiles, Acquire, ScanFields, Gathered, OwnerOf, NewPlan, Trim, ReadFile;
    InitialOwner();
    NextOwner();
    DocumentIsScanned(NEXT_OWNER);
    ActorTexts();
  }

  lemma ActorTexts()
    ensures Trim("w") == "w" && Trim("s") == "s"
  {
    TrimFacts("w");
    TrimFacts("s");
    hide Trim;
  }

  /** The transaction of that plan, staged but not yet published. */
  ghost function StagedDisk(t: Txn, before: Bytes): Disk {
    Disk(t.origin, false, Some(PointerOf(t.journal)),
         map[t.journal.transactionID := BundleDirectory(Some(Persisted(t.plan)), Some(t.journal),
                                                        map[0 := File(before, PRIVATE_FILE_MODE)], None)])
  }

  lemma PlanIsEncodable(p: Plan, before: Bytes, after: Bytes)
    requires Canonical(p) && p.operation == "acquire" && |after| <= MAX_RECORD_BYTES
    requires p.changes == [NewUpdateFile(OWNER_PATH, PRIVATE_FILE_MODE, HashBytes(before), after)]
    ensures EncodablePlan(p)
  {
    hide NewPlan, Canonical, Restorable;
    assert |OWNER_PATH| > 0;
    RestoreUndoesPersisted(p);
  }

  lemma JournalIsValid(t: Txn, before: Bytes, after: Bytes)
    requires t == TxnOf(AnyRoot(), t.origin, t.plan, 0) && t.plan.operation == "acquire" && t.plan.id != NoPlanID
    requires t.plan.changes == [NewUpdateFile(OWNER_PATH, PRIVATE_FILE_MODE, HashBytes(before), after)]
    requires OWNER_PATH in t.origin && t.origin[OWNER_PATH] == File(before, PRIVATE_FILE_MODE)
    ensures ValidJournal(t.journal)
  {
    assert |OWNER_PATH| > 0;
    assert |t.journal.actions| == 1;
    assert t.journal.actions[0] == StagedAction(t.origin, t.plan.changes[0], 0, t.bootstrap);
  }

  lemma InitialChecks(p: Plan, before: Bytes, after: Bytes)
    requires Encode(OWNER) == Some(before)
    requires p.changes == [NewUpdateFile(OWNER_PATH, PRIVATE_FILE_MODE, HashBytes(before), after)]
    requires p.inputs == [Read(OWNER_PATH, before)]
    ensures OWNER_PATH in InitialFiles() && InitialFiles()[OWNER_PATH] == File(before, PRIVATE_FILE_MODE)
    ensures InputsHold(InitialFiles(), p.inputs, {}) && AllBeforeHold(AnyRoot(), InitialFiles(), p.changes)
  {
    hide Encode, Decode, OwnerOf;
    InitialOwner();
    assert InitialFiles()[OWNER_PATH] == File(before, PRIVATE_FILE_MODE) by {
      ProtocolPathsDiffer();
      assert |NAMESPACE| != |OWNER_PATH|;
    }
    hide InitialFiles;
  }

  lemma StagedOnInitial()
    ensures StagedFiles(InitialFiles()) == InitialFiles() && ProperTree(InitialFiles()) && NAMESPACE in InitialFiles()
  {
    hide OwnerOf, Encode;
    InitialOwner();
  }

  lemma StagedBundleIsFresh(t: Txn, before: Bytes, after: Bytes)
    requires t.plan.changes == [NewUpdateFile(OWNER_PATH, PRIVATE_FILE_MODE, HashBytes(before), after)]
    requires OWNER_PATH in t.origin && t.origin[OWNER_PATH] == File(before, PRIVATE_FILE_MODE) && |before| <= MAX_RECORD_BYTES
    requires t.root == AnyRoot() && StagedFiles(t.origin) == t.origin
    ensures t.ID() in StagedDisk(t, before).bundles
    ensures FreshBundle(t.root, t.origin, t.plan, t.journal, StagedDisk(t, before).bundles[t.ID()])
  {
    hide StagedFiles;
  }

  /** The transaction Apply starts for that plan, with everything it checked. */
  lemma InitialTransaction() returns (t: Txn, before: Bytes, after: Bytes)
    ensures t == TxnOf(AnyRoot(), t.origin, t.plan, 0) && t.root == AnyRoot() && !t.bootstrap
    ensures ProperTree(t.origin) && NAMESPACE in t.origin && StagedFiles(t.origin) == t.origin && OwnerOf(t.origin).Some?
    ensures WellFormed(t.plan) && Allowed(t.plan) && t.plan.workspace == ROOT_PATH && t.Size() == 1
    ensures t.plan.changes == [NewUpdateFile(OWNER_PATH, PRIVATE_FILE_MODE, HashBytes(before), after)]
    ensures t.plan.inputs == [Read(OWNER_PATH, before)] && |before| <= MAX_RECORD_BYTES
    ensures OWNER_PATH in t.origin && t.origin[OWNER_PATH] == File(before, PRIVATE_FILE_MODE)
    ensures InputsHold(t.origin, t.plan.inputs, {}) && AllBeforeHold(t.root, t.origin, t.plan.changes)
    ensures EncodablePlan(t.plan) && ValidJournal(t.journal)
  {
    hide Encode, Decode, OwnerOf, InitialFiles, WellFormed, Allowed, PlanAcquire, InputsHold, AllBeforeHold, EncodablePlan, ValidJournal,
      StagedJournal, StagedFiles, NewPlan, ProperTree, ScanFields, ValidOwnership, Seconds;
    var p := AcquirePlan();
    before, after := Encode(OWNER).value, Encode(NEXT_OWNER).value;
    t := TxnOf(AnyRoot(), InitialFiles(), p, 0);
    InitialOwner();
    InitialChecks(p, before, after);
    StagedOnInitial();
    OwnerIsValid();
    DocumentIsScanned(OWNER);
    CanonicalIs(p);
    PlanIsEncodable(p, before, after);
    JournalIsValid(t, before, after);
  }

  /** There is an unfinished transaction on a good workspace, its evidence complete and nothing published yet. */
  lemma UnfinishedTransactionExists() returns (t: Txn, d: Disk)
    ensures t.root == AnyRoot() && Unfinished(t, d) && AtPrefix(t, d.files, 0) && Good(AnyRoot(), d)
    ensures RecoverySafe(t.origin, t.plan) && InputsResolve(t.root, t.plan) && NoDirectoryMade(t, d.files)
  {
    hide OwnerOf, WellFormed, Allowed, InputsHold, AllBeforeHold, EncodablePlan, ValidJournal, Sound,
      StagedJournal, LabelsTrue, StagedFiles, FreshBundle, ProperTree, LabelledTo, PublishedTo, Unfinished, Good, AtPrefix,
      RecoverySafe, InputsResolve, NoDirectoryMade, TxnOf, Live;
    var before, after;
    t, before, after := InitialTransaction();
    d := StagedDisk(t, before);
    StagedBundleIsFresh(t, before, after);
    StagedIsSound(t, 0, d);
    StagedIsUnfinished(t, d);
    PlanIsSafe(t, before, after);
  }

  lemma CanonicalIs(p: Plan)
    requires WellFormed(p)
    ensures Canonical(p) && p.id != NoPlanID
  {
    hide DistinctKeys;
  }

  lemma StagedIsUnfinished(t: Txn, d: Disk)
    requires Sound(t) && Live(t, d) && PublishedTo(t, d.files, 0) && d.files == t.origin && Allowed(t.plan)
    requires NAMESPACE in t.origin && !d.locked && OwnerOf(t.origin).Some?
    ensures Unfinished(t, d) && AtPrefix(t, d.files, 0) && Good(t.root, d)
  {
    hide Sound, Live, PublishedTo, Allowed, EitherWay, Framed, AtPrefix, OwnerOf, Foreseen;
    PublishedIsFramed(t, d.files, 0);
    AllowedFacts(t.plan);
    UnfinishedStays(t, d, 0);
  }

  lemma PlanIsSafe(t: Txn, before: Bytes, after: Bytes)
    requires t.plan.changes == [NewUpdateFile(OWNER_PATH, PRIVATE_FILE_MODE, HashBytes(before), after)]
    requires t.plan.inputs == [Read(OWNER_PATH, before)]
    requires OWNER_PATH in t.origin && t.origin[OWNER_PATH] == File(before, PRIVATE_FILE_MODE)
    ensures RecoverySafe(t.origin, t.plan) && InputsResolve(t.root, t.plan)
    ensures forall files :: NoDirectoryMade(t, files)
  {
    PathsOfOne(t.plan.changes[0]);
  }
}
