/** The values that plans, journals and bundles are made of. */
module Records {
  import opened Wrappers

  /** File contents; each char stands for one byte. */
  type Bytes = string

  const MAX_RECORD_BYTES: nat := 8 * 1024 * 1024
  const NAMESPACE := ".uawp"
  const RECOVERY_ROOT := ".uawp/recovery"
  const OWNER_PATH := ".uawp/ACTIVE_WORKER.md"
  const PURGE_MARKER := ".uawp/PURGE.json"
  const PRIVATE_FILE_MODE: nat := 384  // 0600
  const PRIVATE_DIRECTORY_MODE: nat := 448  // 0700

  /** SHA-256 as a free, hence injective, constructor; the other values are the texts plans use beside it. */
  datatype Digest = NoDigest | MissingDigest | DirectoryDigest | UnsafeDigest | Sha256(content: Bytes)

  function HashBytes(content: Bytes): Digest {
    Sha256(content)
  }

  datatype Kind = CreateDir | CreateFile | UpdateFile | DeleteFile | DeleteDir | UnknownKind(name: string)

  /** A planned change; a persisted change carries the same fields. */
  datatype Change = Change(
    kind: Kind, path: string, before: Digest, after: Digest,
    mode: nat, size: int, sequence: int, content: Bytes)

  function NewDirectory(path: string, mode: nat): Change {
    Change(CreateDir, path, MissingDigest, DirectoryDigest, mode, 0, 0, [])
  }

  function NewFile(path: string, mode: nat, before: Digest, content: Bytes): Change {
    Change(CreateFile, path, before, HashBytes(content), mode, |content|, 0, content)
  }

  function NewUpdateFile(path: string, mode: nat, before: Digest, content: Bytes): Change {
    Change(UpdateFile, path, before, HashBytes(content), mode, |content|, 0, content)
  }

  function NewDeleteFile(path: string, before: Digest): Change {
    Change(DeleteFile, path, before, MissingDigest, 0, 0, 0, [])
  }

  function NewDeleteDirectory(path: string): Change {
    Change(DeleteDir, path, DirectoryDigest, MissingDigest, 0, 0, 0, [])
  }

  function WithSequence(c: Change, sequence: int): Change {
    c.(sequence := sequence)
  }

  datatype Input = Input(path: string, sha256: Digest)

  /** Derived from the plan ID and the start instant. */
  datatype TransactionID = NoTransaction | TransactionOf(plan: PlanID, started: int)

  datatype JournalDigest = NoJournal | JournalSha256(journal: Journal)

  datatype RecoveryAction = NoRecovery | Rollback | Continue

  datatype Metadata = Metadata(
    actorWorkerID: string, actorSessionID: string, ownershipGeneration: nat,
    reason: string, controllerID: string,
    transactionID: TransactionID, journalSHA256: JournalDigest, recoveryAction: RecoveryAction,
    migrationFrom: string, migrationTo: string, migrationReceiptPath: string)

  const NO_METADATA := Metadata("", "", 0, "", "", NoTransaction, NoJournal, NoRecovery, "", "", "")

  /** The hash of the canonical plan encoding, which leaves contents out. */
  datatype PlanID = NoPlanID | IDOf(
    operation: string, workspace: string, hashedChanges: seq<Change>, inputs: seq<Input>, metadata: Metadata)

  datatype Plan = Plan(
    id: PlanID, operation: string, workspace: string,
    changes: seq<Change>, inputs: seq<Input>, metadata: Metadata)

  datatype PersistedPlan = PersistedPlan(
    id: PlanID, operation: string, workspace: string,
    changes: seq<Change>, inputs: seq<Input>, metadata: Metadata)

  datatype ActionState =
    Pending | InProgress | Applied | Verified | RolledBack | RollbackVerified | UnknownState(name: string)

  /** backup is the NNNN of backups/NNNN.bak. */
  datatype Action = Action(
    index: int, change: Change, state: ActionState,
    backup: Option<nat>, backupSHA256: Digest, backupMode: nat)

  datatype Phase = Preparing | Applying | Recovering | UnknownPhase(name: string)

  /** startedAt is None when its text is no RFC 3339 timestamp. */
  datatype Journal = Journal(
    schemaVersion: string, transactionID: TransactionID, operation: string, planID: PlanID,
    workspace: string, phase: Phase, startedAt: Option<int>, actions: seq<Action>)

  datatype LivePointer = LivePointer(
    schemaVersion: string, transactionID: TransactionID, operation: string, planID: PlanID,
    workspace: string, phase: Phase)

  datatype Outcome = Completed | RolledBackResult

  datatype Receipt = Receipt(
    schemaVersion: string, transactionID: TransactionID, operation: string, planID: PlanID,
    completedAt: int, result: Outcome, hashes: map<string, Digest>)

  datatype Bundle = Bundle(
    pointer: LivePointer, journal: Journal, plan: PersistedPlan, receipt: Option<Receipt>)
}
