/** internal/workspace/upgrade.go: the plan that brings an old workspace to the current state version, and the
    workspaces on which that plan can never complete. */
module Upgrades {
  import opened Wrappers
  import opened Records
  import opened Planning
  import opened Transactions
  import opened Text
  import opened Timestamps
  import opened Ownerships
  import opened OwnershipCodec
  import opened Engine
  import opened Invariants
  import opened StagingProofs
  import opened ApplyProofs
  import opened RecoveryOutcomes
  import opened Runs
  import opened Lifecycle
  import opened Readiness
  import opened Completion
  import opened Examples
  import M = MigrationV12

  const MANIFEST_PATH := ".uawp/manifest.json"
  const MIGRATIONS := ".uawp/migrations"
  const STATE_1_0 := "1.0.0"
  const CURRENT_STATE := "1.2.0"

  /** The fields the upgrade reads and writes; rest stands for the others, which it copies. */
  datatype Manifest = Manifest(protocol: string, stateVersion: string, rest: Bytes)

  /** The encoding of manifests, and the reader of what it wrote. */
  datatype Codec = Codec(encode: Manifest -> Bytes, decode: Bytes -> Option<Manifest>)

  /** A directory as an input: there, absent, or unsafe. */
  function DirectoryInput(files: Files, path: string): Option<Input> {
    match Look(files, path)
    case Missing => Some(Input(path, MissingDigest))
    case DirectoryState => Some(Input(path, DirectoryDigest))
    case _ => None
  }

  /** V1_0ToV1_1.Plan on the two directory inputs. */
  function MissingDirectories(migrations: Input, recovery: Input): seq<Change> {
    (if migrations.sha256 == MissingDigest then [WithSequence(NewDirectory(MIGRATIONS, PRIVATE_DIRECTORY_MODE), 10)] else [])
    + (if recovery.sha256 == MissingDigest then [WithSequence(NewDirectory(RECOVERY_ROOT, PRIVATE_DIRECTORY_MODE), 20)] else [])
  }

  /** The steps from an old version on: the directories are new in 1.1, the owner's document in 1.2. */
  function StepChanges(version: string, owner: Bytes, inputs: seq<Input>): Option<seq<Change>>
    requires |inputs| == 4
  {
    var planned := M.Planned(M.Context(M.PROTOCOL_NAME, M.STATE_1_1, inputs, map[OWNER_PATH := owner]));
    if planned.Err? then None
    else Some((if version == STATE_1_0 then MissingDirectories(inputs[2], inputs[3]) else []) + planned.value)
  }

  function UpgradeMetadata(from: string, receiptName: string): Metadata {
    NO_METADATA.(migrationFrom := from, migrationTo := CURRENT_STATE, migrationReceiptPath := MIGRATIONS + "/" + receiptName)
  }

  /** PlanUpgradeAt on a workspace without adapters; the receipt's name stands for the time. */
  function PlanUpgrade(root: Root, d: Disk, codec: Codec, receiptName: string): Option<Plan> {
    var document, owner := ReadFile(d.files, MANIFEST_PATH), ReadFile(d.files, OWNER_PATH);
    if document.None? || codec.decode(document.value).None? || codec.decode(document.value).value.protocol != M.PROTOCOL_NAME then None
    else
      var manifest := codec.decode(document.value).value;
      var migrations, recovery := DirectoryInput(d.files, MIGRATIONS), DirectoryInput(d.files, RECOVERY_ROOT);
      if manifest.stateVersion == CURRENT_STATE then Some(NewPlan("upgrade", root.path, [], [], NO_METADATA))
      else if manifest.stateVersion !in {STATE_1_0, M.STATE_1_1} || d.pointer.Some? || owner.None? || migrations.None? || recovery.None? then
        None
      else
        var inputs := [Read(MANIFEST_PATH, document.value), Read(OWNER_PATH, owner.value), migrations.value, recovery.value];
        var steps := StepChanges(manifest.stateVersion, owner.value, inputs);
        var metadata := UpgradeMetadata(manifest.stateVersion, receiptName);
        if steps.None? || !root.resolves(metadata.migrationReceiptPath) || metadata.migrationReceiptPath in d.files then None
        else
          var target := NewUpdateFile(MANIFEST_PATH, PRIVATE_FILE_MODE, HashBytes(document.value),
                                      codec.encode(manifest.(stateVersion := CURRENT_STATE)));
          Some(NewPlan("upgrade", root.path, steps.value + [WithSequence(target, 100)], inputs, metadata))
  }

  // ----- The plan -----

  lemma UpgradePaths()
    ensures MANIFEST_PATH[6] == 'm' && MANIFEST_PATH[7] == 'a' && MIGRATIONS[6] == 'm' && MIGRATIONS[7] == 'i'
    ensures RECOVERY_ROOT[6] == 'r' && OWNER_PATH[6] == 'A' && |NAMESPACE| == 5
    ensures |MANIFEST_PATH| > 7 && |MIGRATIONS| > 7 && |OWNER_PATH| > 7 && |RECOVERY_ROOT| > 7
  {
  }

  lemma OwnerStep(owner: Bytes, inputs: seq<Input>)
    ensures var planned := M.Planned(M.Context(M.PROTOCOL_NAME, M.STATE_1_1, inputs, map[OWNER_PATH := owner]));
      planned.Ok? ==>
        && |planned.value| == 1
        && var c := planned.value[0];
          && c.sequence == 80 && c.path == OWNER_PATH && c.kind == UpdateFile && c.before == HashBytes(owner) && RestorableChange(c)
          && |c.content| <= MAX_RECORD_BYTES
  {
    hide M.DecodeLegacy, Encode;
    var context := M.Context(M.PROTOCOL_NAME, M.STATE_1_1, inputs, map[OWNER_PATH := owner]);
    if M.Planned(context).Ok? {
      EncodedIsSmall(M.DecodeLegacy(owner).value);
    }
    assert |OWNER_PATH| > 0;
  }

  lemma EncodedIsSmall(o: Ownership)
    requires Encode(o).Some?
    ensures |Encode(o).value| <= MAX_RECORD_BYTES
  {
    DocumentIsScanned(o);
  }

  predicate UpgradeStep(c: Change, owner: Bytes, document: Bytes) {
    && RestorableChange(c) && c.sequence > 0
    && match c.kind
       case CreateDir => c.path in {MIGRATIONS, RECOVERY_ROOT}
       case UpdateFile => (c.path == OWNER_PATH && c.before == HashBytes(owner)) || (c.path == MANIFEST_PATH && c.before == HashBytes(document))
       case _ => false
  }

  /** Directories first, then the owner's document, then the manifest: the sequence ascends and no path comes twice. */
  ghost predicate InUpgradeOrder(changes: seq<Change>, owner: Bytes, document: Bytes) {
    && (forall i, k :: 0 <= i < k < |changes| ==> changes[i].sequence < changes[k].sequence && changes[i].path != changes[k].path)
    && forall c :: c in changes ==> UpgradeStep(c, owner, document)
  }

  lemma StepIsAppended(changes: seq<Change>, c: Change, owner: Bytes, document: Bytes)
    requires InUpgradeOrder(changes, owner, document) && UpgradeStep(c, owner, document)
    requires forall x :: x in changes ==> x.sequence < c.sequence && x.path != c.path
    ensures InUpgradeOrder(changes + [c], owner, document)
  {
    hide UpgradeStep;
    forall i, k | 0 <= i < k < |changes + [c]|
      ensures (changes + [c])[i].sequence < (changes + [c])[k].sequence && (changes + [c])[i].path != (changes + [c])[k].path
    {
      assert (changes + [c])[i] == changes[i] && changes[i] in changes;
    }
  }

  lemma OrderMeansAscending(changes: seq<Change>, owner: Bytes, document: Bytes)
    requires InUpgradeOrder(changes, owner, document) && changes != []
    ensures Ascending(changes) && DistinctPaths(changes) && AllRestorable(changes)
  {
    assert UpgradeStep(changes[|changes| - 1], owner, document);
    hide RestorableChange;
  }

  lemma DirectoriesInOrder(migrations: Input, recovery: Input, owner: Bytes, document: Bytes)
    ensures var made := MissingDirectories(migrations, recovery);
      InUpgradeOrder(made, owner, document) && forall c :: c in made ==> c.sequence <= 20 && c.path in {MIGRATIONS, RECOVERY_ROOT}
  {
    UpgradePaths();
  }

  lemma FilesInOrder(made: seq<Change>, a: Change, b: Change, owner: Bytes, document: Bytes)
    requires InUpgradeOrder(made, owner, document) && forall c :: c in made ==> c.sequence <= 20 && c.path in {MIGRATIONS, RECOVERY_ROOT}
    requires a.sequence == 80 && a.path == OWNER_PATH && a.kind == UpdateFile && a.before == HashBytes(owner) && RestorableChange(a)
    requires b.sequence == 100 && b.path == MANIFEST_PATH && b.kind == UpdateFile && b.before == HashBytes(document) && RestorableChange(b)
    ensures InUpgradeOrder(made + [a] + [b], owner, document)
  {
    hide RestorableChange, InUpgradeOrder;
    UpgradePaths();
    StepIsAppended(made, a, owner, document);
    StepIsAppended(made + [a], b, owner, document);
  }

  lemma StepsInOrder(version: string, owner: Bytes, document: Bytes, inputs: seq<Input>, content: Bytes)
    requires |inputs| == 4 && StepChanges(version, owner, inputs).Some?
    ensures var b := WithSequence(NewUpdateFile(MANIFEST_PATH, PRIVATE_FILE_MODE, HashBytes(document), content), 100);
      InUpgradeOrder(StepChanges(version, owner, inputs).value + [b], owner, document)
    ensures forall c :: c in StepChanges(version, owner, inputs).value ==> |c.content| <= MAX_RECORD_BYTES
  {
    hide M.Planned, InUpgradeOrder, MissingDirectories;
    OwnerStep(owner, inputs);
    UpgradePaths();
    var b := WithSequence(NewUpdateFile(MANIFEST_PATH, PRIVATE_FILE_MODE, HashBytes(document), content), 100);
    var planned := M.Planned(M.Context(M.PROTOCOL_NAME, M.STATE_1_1, inputs, map[OWNER_PATH := owner])).value;
    var made := if version == STATE_1_0 then MissingDirectories(inputs[2], inputs[3]) else [];
    DirectoriesInOrder(inputs[2], inputs[3], owner, document);
    NothingInOrder(owner, document);
    MadeIsEmpty(inputs[2], inputs[3]);
    FilesInOrder(made, planned[0], b, owner, document);
    assert made + planned == made + [planned[0]];
  }

  lemma NothingInOrder(owner: Bytes, document: Bytes)
    ensures InUpgradeOrder([], owner, document)
  {
  }

  lemma MadeIsEmpty(migrations: Input, recovery: Input)
    ensures forall c :: c in MissingDirectories(migrations, recovery) ==> c.content == []
  {
  }

  // ----- Whether it can complete -----

  /** The parts of an upgrade plan that is not empty. */
  ghost predicate UpgradeOf(p: Plan, root: Root, d: Disk, codec: Codec, owner: Bytes, document: Bytes) {
    && ReadFile(d.files, OWNER_PATH) == Some(owner) && ReadFile(d.files, MANIFEST_PATH) == Some(document)
    && InUpgradeOrder(p.changes, owner, document) && Canonical(p) && DistinctKeys(p.changes)
    && p.workspace == root.path && p.operation == "upgrade" && p.id != NoPlanID
    && MIGRATIONS + "/" <= p.metadata.migrationReceiptPath
    && root.resolves(p.metadata.migrationReceiptPath) && p.metadata.migrationReceiptPath !in d.files
    && d.pointer.None?
    && (forall k :: k in p.inputs ==>
          || k in {Read(MANIFEST_PATH, document), Read(OWNER_PATH, owner)}
          || (k.path in {MIGRATIONS, RECOVERY_ROOT} && DirectoryInput(d.files, k.path) == Some(k)))
    && (exists k :: k in p.inputs && k.path == RECOVERY_ROOT)
    && (forall c :: c in p.changes && c.kind == CreateDir ==> DirectoryInput(d.files, c.path) == Some(Input(c.path, MissingDigest)))
    && (forall c :: c in p.changes && c.path != MANIFEST_PATH ==> |c.content| <= MAX_RECORD_BYTES)
  }

  lemma EmptyUpgrade(root: Root)
    ensures NewPlan("upgrade", root.path, [], [], NO_METADATA).changes == []
  {
    hide HashedAll;
  }

  lemma UpgradePlan(root: Root, changes: seq<Change>, inputs: seq<Input>, metadata: Metadata, owner: Bytes, document: Bytes)
    requires InUpgradeOrder(changes, owner, document) && changes != []
    ensures var p := NewPlan("upgrade", root.path, changes, inputs, metadata);
      && Canonical(p) && p.changes == changes && (forall k :: k in p.inputs <==> k in inputs)
      && p.metadata == metadata && p.workspace == root.path && p.operation == "upgrade" && p.id != NoPlanID && DistinctKeys(p.changes)
  {
    hide NewPlan, Canonical, DistinctKeys, Ascending, InUpgradeOrder;
    OrderMeansAscending(changes, owner, document);
    AscendingPlan("upgrade", root.path, changes, inputs, metadata);
  }

  lemma DirectoryInputIsOf(files: Files, path: string)
    requires DirectoryInput(files, path).Some?
    ensures DirectoryInput(files, path).value.path == path
    ensures DirectoryInput(files, path).value.sha256 == MissingDigest ==> DirectoryInput(files, path) == Some(Input(path, MissingDigest))
  {
  }

  lemma StepsMakeMissing(version: string, files: Files, owner: Bytes, inputs: seq<Input>)
    requires |inputs| == 4 && DirectoryInput(files, MIGRATIONS) == Some(inputs[2]) && DirectoryInput(files, RECOVERY_ROOT) == Some(inputs[3])
    requires StepChanges(version, owner, inputs).Some?
    ensures forall c :: c in StepChanges(version, owner, inputs).value && c.kind == CreateDir ==>
      DirectoryInput(files, c.path) == Some(Input(c.path, MissingDigest))
  {
    hide M.Planned, DirectoryInput;
    OwnerStep(owner, inputs);
    DirectoryInputIsOf(files, MIGRATIONS);
    DirectoryInputIsOf(files, RECOVERY_ROOT);
  }

  lemma UpgradeParts(root: Root, d: Disk, codec: Codec, receiptName: string) returns (owner: Bytes, document: Bytes)
    requires PlanUpgrade(root, d, codec, receiptName).Some? && PlanUpgrade(root, d, codec, receiptName).value.changes != []
    ensures UpgradeOf(PlanUpgrade(root, d, codec, receiptName).value, root, d, codec, owner, document)
  {
    hide StepChanges, InUpgradeOrder, Canonical, DistinctKeys, ReadFile, NewPlan, DirectoryInput;
    EmptyUpgrade(root);
    document, owner := ReadFile(d.files, MANIFEST_PATH).value, ReadFile(d.files, OWNER_PATH).value;
    var manifest := codec.decode(document).value;
    var migrations, recovery := DirectoryInput(d.files, MIGRATIONS).value, DirectoryInput(d.files, RECOVERY_ROOT).value;
    var inputs := [Read(MANIFEST_PATH, document), Read(OWNER_PATH, owner), migrations, recovery];
    var metadata := UpgradeMetadata(manifest.stateVersion, receiptName);
    var content := codec.encode(manifest.(stateVersion := CURRENT_STATE));
    var b := WithSequence(NewUpdateFile(MANIFEST_PATH, PRIVATE_FILE_MODE, HashBytes(document), content), 100);
    var steps := StepChanges(manifest.stateVersion, owner, inputs).value;
    StepsInOrder(manifest.stateVersion, owner, document, inputs, content);
    StepsMakeMissing(manifest.stateVersion, d.files, owner, inputs);
    UpgradePlan(root, steps + [b], inputs, metadata, owner, document);
    DirectoryInputIsOf(d.files, MIGRATIONS);
    DirectoryInputIsOf(d.files, RECOVERY_ROOT);
    assert recovery in inputs;
  }

  /** Nothing but the plan itself can stand in the way of applying it here. */
  ghost predicate Unhindered(root: Root, d: Disk, p: Plan, started: int) {
    && NAMESPACE in d.files && d.files[NAMESPACE].Directory? && !d.locked && PURGE_MARKER !in d.files
    && TransactionOf(p.id, started) !in d.bundles && |root.path| > 0 && root.path[0] == '/'
    && (forall q :: q in {MIGRATIONS, RECOVERY_ROOT, OWNER_PATH, MANIFEST_PATH} ==> root.resolves(q))
    && (forall q :: q in {OWNER_PATH, MANIFEST_PATH} && q in d.files ==>
          d.files[q].mode != 0 && (d.files[q].File? ==> |d.files[q].content| <= MAX_RECORD_BYTES))
    && forall c :: c in p.changes ==> |c.content| <= MAX_RECORD_BYTES
  }

  lemma UpgradeIsWellFormed(root: Root, d: Disk, p: Plan, codec: Codec, owner: Bytes, document: Bytes)
    requires UpgradeOf(p, root, d, codec, owner, document)
    ensures WellFormed(p) && forall k :: k in p.inputs ==> k.path in {MIGRATIONS, RECOVERY_ROOT, OWNER_PATH, MANIFEST_PATH}
  {
    hide Canonical, DistinctKeys, ReadFile, DirectoryInput, RestorableChange;
    UpgradePaths();
    ReceiptIsInside(p.metadata.migrationReceiptPath);
    assert forall c :: c in p.changes ==> UpgradeStep(c, owner, document);
  }

  lemma ReceiptIsInside(path: string)
    requires MIGRATIONS + "/" <= path
    ensures path !in {MIGRATIONS, RECOVERY_ROOT, OWNER_PATH, MANIFEST_PATH, NAMESPACE} && ".uawp/" <= path && path != ""
  {
    UpgradePaths();
    assert |path| > |MIGRATIONS| && path[6] == 'm' && path[7] == 'i';
  }

  lemma UpgradeInputsHold(root: Root, d: Disk, p: Plan, codec: Codec, owner: Bytes, document: Bytes)
    requires UpgradeOf(p, root, d, codec, owner, document)
    ensures InputsHold(d.files, p.inputs, {})
  {
    hide Canonical, DistinctKeys, InUpgradeOrder;
    forall k | 0 <= k < |p.inputs|
      ensures InputHolds(d.files, p.inputs[k])
    {
      assert p.inputs[k] in p.inputs;
    }
  }

  lemma UpgradeTarget(root: Root, d: Disk, p: Plan, codec: Codec, owner: Bytes, document: Bytes, started: int, c: Change)
    requires UpgradeOf(p, root, d, codec, owner, document) && Unhindered(root, d, p, started) && c in p.changes
    ensures RestorableChange(c) && BeforeHolds(root, d.files, c)
    ensures NeedsBackup(c) ==>
      && c.before.Sha256? && FitsRecord(d.files, c.path) && HashBytes(d.files[c.path].content) == c.before
      && d.files[c.path].mode != 0 && root.resolves(c.path)
  {
    hide Canonical, DistinctKeys;
    assert UpgradeStep(c, owner, document);
  }

  lemma UpgradeTargets(root: Root, d: Disk, p: Plan, codec: Codec, owner: Bytes, document: Bytes, started: int)
    requires UpgradeOf(p, root, d, codec, owner, document) && Unhindered(root, d, p, started)
    ensures AllBeforeHold(root, d.files, p.changes) && TargetsReadable(root, d.files, p.changes)
    ensures forall c :: c in p.changes && NeedsBackup(c) ==> c.before.Sha256? && c.path in d.files && d.files[c.path].mode != 0
  {
    hide UpgradeOf, Unhindered, NeedsBackup, BeforeHolds, RestorableChange;
    forall c | c in p.changes
      ensures BeforeHolds(root, d.files, c)
      ensures NeedsBackup(c) ==>
        && c.before.Sha256? && FitsRecord(d.files, c.path) && HashBytes(d.files[c.path].content) == c.before
        && d.files[c.path].mode != 0 && root.resolves(c.path)
    {
      UpgradeTarget(root, d, p, codec, owner, document, started, c);
    }
    assert forall i :: 0 <= i < |p.changes| ==> p.changes[i] in p.changes;
  }

  lemma UpgradeRecords(root: Root, d: Disk, p: Plan, codec: Codec, owner: Bytes, document: Bytes, started: int)
    requires UpgradeOf(p, root, d, codec, owner, document) && Unhindered(root, d, p, started) && p.changes != []
    ensures EncodablePlan(p) && ValidJournal(StagedJournal(root, d.files, p, started, false))
  {
    hide InUpgradeOrder, Canonical, DistinctKeys, Ascending, AllRestorable, DistinctPaths, NeedsBackup, AllBeforeHold, StagedJournal,
      ValidJournal, EncodablePlan, TargetsReadable, DirectoryInput, ReadFile;
    OrderMeansAscending(p.changes, owner, document);
    UpgradeTargets(root, d, p, codec, owner, document, started);
    CanonicalIsEncodable(p);
    StagedJournalIsValid(root, d.files, p, started, false);
  }

  lemma UpgradeReceipt(root: Root, d: Disk, p: Plan, codec: Codec, owner: Bytes, document: Bytes, started: int, finished: int)
    requires UpgradeOf(p, root, d, codec, owner, document) && NAMESPACE in d.files
    ensures ReceiptAccepted(TxnOf(root, d.files, p, started), StagedFiles(d.files), finished)
  {
    ReceiptIsInside(p.metadata.migrationReceiptPath);
    hide InUpgradeOrder, Canonical, DistinctKeys, DirectoryInput, ReceiptFor;
  }

  /** On an unhindered workspace the upgrade passes every check Apply makes before it publishes. */
  lemma UpgradeIsReady(root: Root, d: Disk, p: Plan, codec: Codec, owner: Bytes, document: Bytes, started: int, finished: int)
    requires UpgradeOf(p, root, d, codec, owner, document) && Unhindered(root, d, p, started) && p.changes != []
    ensures ReadyToApply(TxnOf(root, d.files, p, started), d, p.id, finished) && ProperTree(d.files)
  {
    hide InUpgradeOrder, Canonical, DistinctKeys, InputsHold, AllBeforeHold, StagedAction, ValidJournal, EncodablePlan,
      TargetsReadable, ReceiptAccepted, StagedFiles, DirectoryInput, ReadFile;
    UpgradeTargets(root, d, p, codec, owner, document, started);
    UpgradeInputsHold(root, d, p, codec, owner, document);
    UpgradeRecords(root, d, p, codec, owner, document, started);
    UpgradeReceipt(root, d, p, codec, owner, document, started, finished);
    RecoveryRootIsSafe(root, d, p, codec, owner, document);
  }

  lemma RecoveryRootIsSafe(root: Root, d: Disk, p: Plan, codec: Codec, owner: Bytes, document: Bytes)
    requires UpgradeOf(p, root, d, codec, owner, document)
    ensures RECOVERY_ROOT in d.files ==> d.files[RECOVERY_ROOT].Directory?
  {
    hide InUpgradeOrder, Canonical, DistinctKeys;
    UpgradePaths();
    var k :| k in p.inputs && k.path == RECOVERY_ROOT;
  }

  lemma UpgradeForeseen(root: Root, d: Disk, p: Plan, codec: Codec, owner: Bytes, document: Bytes)
    requires UpgradeOf(p, root, d, codec, owner, document) && NAMESPACE in d.files
    ensures Foreseen(d.files, p) <==> RECOVERY_ROOT in d.files
  {
    hide InUpgradeOrder, Canonical, DistinctKeys, DirectoryInput;
    var k :| k in p.inputs && k.path == RECOVERY_ROOT;
    var i :| 0 <= i < |p.inputs| && p.inputs[i] == k;
  }

  /** With nothing else in the way and enough writes, an upgrade completes exactly when the workspace already has the
      recovery directory; without it, no budget and no instant is enough. */
  lemma UpgradeNeedsRecoveryRoot(root: Root, m: Machine, codec: Codec, receiptName: string, started: int, finished: int)
    requires PlanUpgrade(root, m.disk, codec, receiptName).Some?
    requires PlanUpgrade(root, m.disk, codec, receiptName).value.changes != []
    requires NAMESPACE in m.disk.files
    ensures var p := PlanUpgrade(root, m.disk, codec, receiptName).value;
      && (RECOVERY_ROOT !in m.disk.files ==> ApplyRun(root, m, p, p.id, started, finished).Halt?)
      && (RECOVERY_ROOT in m.disk.files && Unhindered(root, m.disk, p, started) && m.left >= 5 * |p.changes| + 11 ==>
            ApplyRun(root, m, p, p.id, started, finished).Go?)
  {
    hide PlanUpgrade, UpgradeOf, Unhindered, ApplyRun, ReadyToApply, WellFormed, Foreseen, StagedJournal;
    var owner, document := UpgradeParts(root, m.disk, codec, receiptName);
    var p := PlanUpgrade(root, m.disk, codec, receiptName).value;
    UpgradeIsWellFormed(root, m.disk, p, codec, owner, document);
    UpgradeForeseen(root, m.disk, p, codec, owner, document);
    if RECOVERY_ROOT !in m.disk.files {
      UnforeseenNeverCompletes(root, m, p, p.id, started, finished);
    } else if Unhindered(root, m.disk, p, started) && m.left >= 5 * |p.changes| + 11 {
      UpgradeIsReady(root, m.disk, p, codec, owner, document, started, finished);
      ApplyGoesThroughExactly(root, m, p, started, finished);
    }
  }

  lemma UpgradeIsDue(root: Root, d: Disk, p: Plan, codec: Codec, owner: Bytes, document: Bytes, started: int)
    requires UpgradeOf(p, root, d, codec, owner, document) && NAMESPACE in d.files
    ensures ReceiptDue(TxnOf(root, d.files, p, started), StagedFiles(d.files))
  {
    hide InUpgradeOrder, Canonical, DistinctKeys, DirectoryInput;
    ReceiptIsInside(p.metadata.migrationReceiptPath);
  }

  /** And an upgrade that would go through can be cut off so that it never will: there is a write at which it stops with the
      live pointer out, and no attempts in other seconds ever clear it. */
  lemma UpgradeCanStrand(root: Root, d: Disk, codec: Codec, receiptName: string, started: int, finished: int) returns (writes: nat)
    requires PlanUpgrade(root, d, codec, receiptName).Some? && PlanUpgrade(root, d, codec, receiptName).value.changes != []
    requires RECOVERY_ROOT in d.files && Unhindered(root, d, PlanUpgrade(root, d, codec, receiptName).value, started)
    ensures var p := PlanUpgrade(root, d, codec, receiptName).value;
      var r := ApplyRun(root, Machine(d, writes), p, p.id, started, finished);
      && r.Halt? && r.m.disk.pointer.Some?
      && forall attempts :: Injective(root.encodeReceipt) && InOtherSeconds(attempts, finished) ==>
           AfterAttempts(root, r.m.disk, attempts).pointer.Some?
  {
    hide PlanUpgrade, UpgradeOf, Unhindered, ApplyRun, ReadyToApply, WellFormed, Foreseen, StagedJournal, Sound, Stranded, ReceiptDue,
      ProperTree, AfterAttempts, Injective, StagedFiles;
    var owner, document := UpgradeParts(root, d, codec, receiptName);
    var p := PlanUpgrade(root, d, codec, receiptName).value;
    UpgradeIsWellFormed(root, d, p, codec, owner, document);
    UpgradeIsReady(root, d, p, codec, owner, document, started, finished);
    ReadyHasChanges(TxnOf(root, d.files, p, started), d, p.id, finished);
    UpgradeForeseen(root, d, p, codec, owner, document);
    UpgradeIsDue(root, d, p, codec, owner, document, started);
    writes := ApplyCanStrandReceipt(root, d, p, started, finished);
    var left := ApplyRun(root, Machine(d, writes), p, p.id, started, finished).m.disk;
    StrandedIsLive(TxnOf(root, d.files, p, started), left, finished);
    forall attempts | Injective(root.encodeReceipt) && InOtherSeconds(attempts, finished)
      ensures AfterAttempts(root, left, attempts).pointer.Some?
    {
      StrandedStays(TxnOf(root, d.files, p, started), left, finished, attempts);
    }
  }

  /** Rollbacks and continues, none of them in the second the receipt was written in. */
  ghost predicate InOtherSeconds(attempts: seq<Attempt>, written: int) {
    Chosen(attempts) && forall a :: a in attempts ==> a.now / NANOSECONDS != written / NANOSECONDS
  }

  lemma StrandedIsLive(t: Txn, d: Disk, written: int)
    requires Stranded(t, d, written)
    ensures d.pointer.Some?
  {
    hide AllAfterState, ReceiptWritten, EitherWay, Framed, BundleKept;
  }

  // ----- A workspace of the first version -----

  /** Manifests of no other field, written as their version. */
  function PlainCodec(): Codec {
    Codec((m: Manifest) => m.stateVersion, (content: Bytes) => Some(Manifest(M.PROTOCOL_NAME, content, [])))
  }

  /** A workspace as it was initialised then, with a free owner, with or without the recovery directory. */
  function FirstFiles(recovery: bool): Files {
    map[NAMESPACE := Directory(PRIVATE_DIRECTORY_MODE), MANIFEST_PATH := File(STATE_1_0, PRIVATE_FILE_MODE),
        OWNER_PATH := File(M.LegacyDocument(OWNER), PRIVATE_FILE_MODE)]
    + if recovery then map[RECOVERY_ROOT := Directory(PRIVATE_DIRECTORY_MODE)] else map[]
  }

  function FirstDisk(recovery: bool): Disk {
    Disk(FirstFiles(recovery), false, None, map[])
  }

  /** A root on which every path can be looked up; how it writes receipts is left open. */
  ghost predicate OpenRoot(root: Root) {
    root.path == ROOT_PATH && forall q :: root.resolves(q)
  }

  lemma FirstFilesFacts(recovery: bool)
    ensures var files := FirstFiles(recovery);
      && NAMESPACE in files && files[NAMESPACE].Directory? && MIGRATIONS !in files && PURGE_MARKER !in files
      && (RECOVERY_ROOT in files <==> recovery) && (recovery ==> files[RECOVERY_ROOT].Directory?)
      && ReadFile(files, MANIFEST_PATH) == Some(STATE_1_0) && ReadFile(files, OWNER_PATH) == Some(M.LegacyDocument(OWNER))
      && MIGRATIONS + "/" + "r" !in files
      && files[MANIFEST_PATH] == File(STATE_1_0, PRIVATE_FILE_MODE) && files[OWNER_PATH] == File(M.LegacyDocument(OWNER), PRIVATE_FILE_MODE)
  {
    hide M.LegacyDocument;
    UpgradePaths();
    assert PURGE_MARKER[6] == 'P' && |PURGE_MARKER| > 7;
    assert (MIGRATIONS + "/" + "r")[6] == 'm' && (MIGRATIONS + "/" + "r")[7] == 'i' && |MIGRATIONS + "/" + "r"| > 7;
  }

  lemma OwnerIsLegacy()
    ensures M.LegacyRecord(OWNER) && M.Short(OWNER) && M.ToTheSecond(OWNER) == OWNER
  {
    TrimFacts("w");
    TrimFacts("a");
    TrimFacts("p");
    assert Trim("w") == "w" && Trim("a") == "a" && Trim("p") == "p";
    M.EmptyIsTrimmed();
    hide Seconds;
  }

  lemma LegacyIsSmall()
    ensures |M.LegacyDocument(OWNER)| <= MAX_RECORD_BYTES
  {
    OwnerIsLegacy();
    M.LegacyIsWritable(OWNER);
    hide M.LegacyRecord, Writable;
    LinesAreShort(M.LegacyFields(OWNER), M.LEGACY_FIELDS, map[]);
    hide FieldLines;
    assert |M.LegacyFields(OWNER)| == 6 && |TITLE| == 22;
  }

  lemma FirstOwner()
    ensures M.DecodeLegacy(M.LegacyDocument(OWNER)) == Ok(OWNER) && Encode(OWNER).Some?
    ensures |M.LegacyDocument(OWNER)| <= MAX_RECORD_BYTES
  {
    OwnerIsValid();
    OwnerIsLegacy();
    LegacyIsSmall();
    M.LegacyDocumentReads(OWNER);
    hide M.DecodeLegacy, M.LegacyDocument, ValidOwnership, M.LegacyRecord;
  }

  lemma FirstSteps(inputs: seq<Input>)
    requires |inputs| == 4 && inputs[1] == Read(OWNER_PATH, M.LegacyDocument(OWNER)) && inputs[0].path == MANIFEST_PATH
    ensures StepChanges(STATE_1_0, M.LegacyDocument(OWNER), inputs).Some?
  {
    FirstOwner();
    UpgradePaths();
    hide M.DecodeLegacy, M.LegacyDocument, Encode, MissingDirectories;
    assert M.OwnerInput(inputs) == HashBytes(M.LegacyDocument(OWNER)) by {
      assert inputs[1..][0] == inputs[1];
    }
  }

  lemma FirstIsPlanned(root: Root, recovery: bool)
    requires OpenRoot(root)
    ensures var p := PlanUpgrade(root, FirstDisk(recovery), PlainCodec(), "r");
      p.Some? && p.value.changes != [] && forall c :: c in p.value.changes ==> |c.content| <= MAX_RECORD_BYTES
  {
    hide StepChanges, InUpgradeOrder, Canonical, DistinctKeys, NewPlan, FirstFiles, M.LegacyDocument, ReadFile;
    FirstFilesFacts(recovery);
    var owner := M.LegacyDocument(OWNER);
    var inputs := [Read(MANIFEST_PATH, STATE_1_0), Read(OWNER_PATH, owner), Input(MIGRATIONS, MissingDigest),
                   Input(RECOVERY_ROOT, if recovery then DirectoryDigest else MissingDigest)];
    FirstSteps(inputs);
    StepsInOrder(STATE_1_0, owner, STATE_1_0, inputs, CURRENT_STATE);
    var b := WithSequence(NewUpdateFile(MANIFEST_PATH, PRIVATE_FILE_MODE, HashBytes(STATE_1_0), CURRENT_STATE), 100);
    var changes := StepChanges(STATE_1_0, owner, inputs).value + [b];
    UpgradePlan(root, changes, inputs, UpgradeMetadata(STATE_1_0, "r"), owner, STATE_1_0);
  }

  lemma FirstIsUnhindered(root: Root, recovery: bool, p: Plan, started: int)
    requires OpenRoot(root) && forall c :: c in p.changes ==> |c.content| <= MAX_RECORD_BYTES
    ensures Unhindered(root, FirstDisk(recovery), p, started)
  {
    hide FirstFiles, M.LegacyDocument, M.DecodeLegacy, Encode;
    FirstFilesFacts(recovery);
    FirstOwner();
    assert ROOT_PATH[0] == '/';
  }

  /** Without the recovery directory its upgrade is planned, every check before publication passes, and yet it never
      completes. */
  lemma StuckUpgradeExists(root: Root)
    requires OpenRoot(root)
    ensures var d, p := FirstDisk(false), PlanUpgrade(root, FirstDisk(false), PlainCodec(), "r");
      && p.Some? && WellFormed(p.value) && ProperTree(d.files) && !Foreseen(d.files, p.value)
      && (forall started, finished :: ReadyToApply(TxnOf(root, d.files, p.value, started), d, p.value.id, finished))
      && forall writes, started, finished :: ApplyRun(root, Machine(d, writes), p.value, p.value.id, started, finished).Halt?
  {
    hide UpgradeOf, Unhindered, ReadyToApply, WellFormed, StagedJournal, Foreseen, ApplyRun, PlanUpgrade, FirstFiles;
    var d := FirstDisk(false);
    FirstFilesFacts(false);
    FirstIsPlanned(root, false);
    var p := PlanUpgrade(root, d, PlainCodec(), "r").value;
    var owner, document := UpgradeParts(root, d, PlainCodec(), "r");
    UpgradeIsWellFormed(root, d, p, PlainCodec(), owner, document);
    UpgradeForeseen(root, d, p, PlainCodec(), owner, document);
    forall started, finished
      ensures ReadyToApply(TxnOf(root, d.files, p, started), d, p.id, finished) && ProperTree(d.files)
    {
      FirstIsUnhindered(root, false, p, started);
      UpgradeIsReady(root, d, p, PlainCodec(), owner, document, started, finished);
    }
    forall writes, started, finished
      ensures ApplyRun(root, Machine(d, writes), p, p.id, started, finished).Halt?
    {
      UpgradeNeedsRecoveryRoot(root, Machine(d, writes), PlainCodec(), "r", started, finished);
    }
  }

  /** With it the upgrade goes through, and yet can be cut off so that no attempts in other seconds ever settle it. */
  lemma StrandedUpgradeExists(root: Root, started: int, finished: int) returns (writes: nat)
    requires OpenRoot(root) && Injective(root.encodeReceipt)
    ensures var p := PlanUpgrade(root, FirstDisk(true), PlainCodec(), "r");
      && p.Some?
      && ApplyRun(root, Machine(FirstDisk(true), 5 * |p.value.changes| + 11), p.value, p.value.id, started, finished).Go?
      && var d := ApplyRun(root, Machine(FirstDisk(true), writes), p.value, p.value.id, started, finished).m.disk;
         forall attempts :: InOtherSeconds(attempts, finished) ==> AfterAttempts(root, d, attempts).pointer.Some?
  {
    hide PlanUpgrade, Unhindered, FirstFiles, ApplyRun, AfterAttempts, Injective, InOtherSeconds;
    FirstFilesFacts(true);
    FirstIsPlanned(root, true);
    var p := PlanUpgrade(root, FirstDisk(true), PlainCodec(), "r").value;
    FirstIsUnhindered(root, true, p, started);
    UpgradeNeedsRecoveryRoot(root, Machine(FirstDisk(true), 5 * |p.changes| + 11), PlainCodec(), "r", started, finished);
    writes := UpgradeCanStrand(root, FirstDisk(true), PlainCodec(), "r", started, finished);
  }
}
