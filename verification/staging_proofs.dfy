/** Staging: nothing is live before the live pointer, and the live pointer comes with complete evidence. */
module StagingProofs {
  import opened Wrappers
  import opened Records
  import opened Planning
  import opened Transactions
  import opened Engine
  import opened Invariants

  /** The disks differ in one bundle directory at most. */
  ghost predicate OnlyBundle(d: Disk, d': Disk, id: TransactionID) {
    d' == d.(bundles := d'.bundles) && d'.bundles - {id} == d.bundles - {id}
  }

  lemma StoreIsOnlyBundle(d: Disk, id: TransactionID, b: BundleDirectory)
    ensures OnlyBundle(d, Store(d, id, b), id)
  {
    assert Store(d, id, b).bundles - {id} == d.bundles - {id};
  }

  /** Backups i and up are in b, and each target was a readable file with the planned content. */
  ghost predicate BackedUp(root: Root, files: Files, changes: seq<Change>, i: nat, b: BundleDirectory) {
    forall k :: i <= k < |changes| && NeedsBackup(changes[k]) ==>
      var path := changes[k].path;
      && root.resolves(path) && FitsRecord(files, path) && HashBytes(files[path].content) == changes[k].before
      && k in b.backups && b.backups[k] == File(files[path].content, PRIVATE_FILE_MODE)
  }

  lemma {:induction false} BackupsAreStaged(root: Root, m: Machine, id: TransactionID, changes: seq<Change>, i: nat)
    requires i <= |changes|
    ensures var r := StageBackups(root, m, id, changes, i);
      && OnlyBundle(m.disk, r.m.disk, id)
      && (r.Go? ==>
            && (id in m.disk.bundles ==> id in r.m.disk.bundles)
            && var b := Stored(m.disk, id);
               var b' := Stored(r.m.disk, id);
               && b' == b.(backups := b'.backups)
               && (forall k :: k < i && k in b.backups ==> k in b'.backups && b'.backups[k] == b.backups[k])
               && BackedUp(root, m.disk.files, changes, i, b'))
    decreases |changes| - i
  {
    if i < |changes| {
      hide NeedsBackup, BackedUp;
      var c, files := changes[i], m.disk.files;
      if !NeedsBackup(c) {
        BackupsAreStaged(root, m, id, changes, i + 1);
        BackedUpFrom(root, files, changes, i, Stored(StageBackups(root, m, id, changes, i + 1).m.disk, id));
      } else if root.resolves(c.path) && FitsRecord(files, c.path) && HashBytes(files[c.path].content) == c.before && m.left > 0 {
        var b := Stored(m.disk, id);
        var b1 := b.(backups := b.backups[i := File(files[c.path].content, PRIVATE_FILE_MODE)]);
        var m1 := Machine(Store(m.disk, id, b1), m.left - 1);
        BackupsAreStaged(root, m1, id, changes, i + 1);
        BackedUpFrom(root, files, changes, i, Stored(StageBackups(root, m1, id, changes, i + 1).m.disk, id));
        assert m1.disk.bundles - {id} == m.disk.bundles - {id};
      }
    }
  }

  /** Readable targets and enough writes are all it takes. */
  lemma {:induction false} BackupsGoThrough(root: Root, m: Machine, id: TransactionID, changes: seq<Change>, i: nat)
    requires i <= |changes|
    ensures var r := StageBackups(root, m, id, changes, i);
      && (TargetsReadable(root, m.disk.files, changes) && m.left >= |changes| - i ==> r.Go?)
      && (r.Go? ==> r.m.left >= m.left - (|changes| - i))
    decreases |changes| - i
  {
    hide NeedsBackup;
    if i < |changes| {
      var c, files := changes[i], m.disk.files;
      if !NeedsBackup(c) {
        BackupsGoThrough(root, m, id, changes, i + 1);
      } else if root.resolves(c.path) && FitsRecord(files, c.path) && HashBytes(files[c.path].content) == c.before && m.left > 0 {
        var b := Stored(m.disk, id);
        var b1 := b.(backups := b.backups[i := File(files[c.path].content, PRIVATE_FILE_MODE)]);
        BackupsGoThrough(root, Machine(Store(m.disk, id, b1), m.left - 1), id, changes, i + 1);
      }
    }
  }

  lemma BackedUpFrom(root: Root, files: Files, changes: seq<Change>, i: nat, b: BundleDirectory)
    requires i < |changes|
    ensures BackedUp(root, files, changes, i, b) <==>
      && BackedUp(root, files, changes, i + 1, b)
      && (NeedsBackup(changes[i]) ==>
            var path := changes[i].path;
            && root.resolves(path) && FitsRecord(files, path) && HashBytes(files[path].content) == changes[i].before
            && i in b.backups && b.backups[i] == File(files[path].content, PRIVATE_FILE_MODE))
  {
    hide NeedsBackup;
  }

  /** The bundle as it stands when the live pointer is published. */
  ghost predicate FreshBundle(root: Root, files: Files, plan: Plan, journal: Journal, b: BundleDirectory) {
    && b.plan == Some(Persisted(plan)) && b.journal == Some(journal) && b.receipt == None
    && BackedUp(root, files, plan.changes, 0, b)
  }

  lemma BackedUpIgnoresJournal(root: Root, files: Files, changes: seq<Change>, b: BundleDirectory, journal: Journal)
    requires BackedUp(root, files, changes, 0, b)
    ensures BackedUp(root, files, changes, 0, b.(journal := Some(journal)))
  {
  }

  lemma JournalIsStaged(m: Machine, journal: Journal, bootstrap: bool)
    ensures var r := StageJournal(m, journal, bootstrap);
      var id := journal.transactionID;
      && (r.Halt? ==> OnlyBundle(m.disk, r.m.disk, id))
      && (r.Go? ==>
            && ValidJournal(journal)
            && r.m.disk == Store(m.disk, id, Stored(m.disk, id).(journal := Some(journal))).(
                 pointer := Some(PointerOf(journal)),
                 files := if bootstrap then StagedFiles(m.disk.files) else m.disk.files)
            && r.m.left >= m.left - 3)
      && (ValidJournal(journal) && m.left >= 3 ==> r.Go?)
  {
    hide ValidJournal, StagedFiles;
    StoreIsOnlyBundle(m.disk, journal.transactionID, Stored(m.disk, journal.transactionID).(journal := Some(journal)));
  }

  /** Every update or delete target is a readable file with the planned before content. */
  predicate TargetsReadable(root: Root, files: Files, changes: seq<Change>) {
    forall k :: 0 <= k < |changes| && NeedsBackup(changes[k]) ==>
      && root.resolves(changes[k].path) && FitsRecord(files, changes[k].path)
      && HashBytes(files[changes[k].path].content) == changes[k].before
  }

  lemma RecordsAreStaged(root: Root, m: Machine, plan: Plan, journal: Journal, bootstrap: bool)
    ensures var r := StageRecords(root, m, plan, journal, bootstrap);
      var id := journal.transactionID;
      && (r.Halt? ==> OnlyBundle(m.disk, r.m.disk, id))
      && (r.Go? ==>
            && EncodablePlan(plan) && ValidJournal(journal)
            && r.m.disk == m.disk.(pointer := Some(PointerOf(journal)), bundles := r.m.disk.bundles,
                                   files := if bootstrap then StagedFiles(m.disk.files) else m.disk.files)
            && r.m.disk.bundles - {id} == m.disk.bundles - {id} && id in r.m.disk.bundles
            && FreshBundle(root, m.disk.files, plan, journal, r.m.disk.bundles[id])
            && r.m.left >= m.left - (|plan.changes| + 5))
      && (id !in m.disk.bundles && EncodablePlan(plan) && ValidJournal(journal)
          && TargetsReadable(root, m.disk.files, plan.changes) && m.left >= |plan.changes| + 5
          ==> r.Go?)
  {
    hide EncodablePlan, ValidJournal, StagedFiles, BackedUp, FitsRecord, StageJournal;
    var id := journal.transactionID;
    if id !in m.disk.bundles && m.left > 0 {
      var d1 := Store(m.disk, id, EMPTY_BUNDLE);
      StoreIsOnlyBundle(m.disk, id, EMPTY_BUNDLE);
      if EncodablePlan(plan) && m.left > 1 {
        var b2 := EMPTY_BUNDLE.(plan := Some(Persisted(plan)));
        var m2 := Machine(Store(d1, id, b2), m.left - 2);
        StoreIsOnlyBundle(d1, id, b2);
        BackupsAreStaged(root, m2, id, plan.changes, 0);
        BackupsGoThrough(root, m2, id, plan.changes, 0);
        var r3 := StageBackups(root, m2, id, plan.changes, 0);
        if r3.Go? {
          JournalIsStaged(r3.m, journal, bootstrap);
          StoreIsOnlyBundle(r3.m.disk, id, Stored(r3.m.disk, id).(journal := Some(journal)));
          BackedUpIgnoresJournal(root, m.disk.files, plan.changes, Stored(r3.m.disk, id), journal);
        }
      }
    }
  }

  /** prepareDurableTransaction either changes nothing a reader can see, but for the recovery directory,
      or makes a sound transaction live; only a refused write stops it when the evidence is in order. */
  lemma StagingIsAllOrNothing(root: Root, m: Machine, plan: Plan, journal: Journal, bootstrap: bool)
    requires bootstrap == (NAMESPACE !in m.disk.files) && ProperTree(m.disk.files)
    ensures var r := Stage(root, m, plan, journal, bootstrap);
      var id := journal.transactionID;
      var staged := StagedFiles(m.disk.files);
      && (r.Halt? ==>
            && r.m.disk == m.disk.(files := r.m.disk.files, bundles := r.m.disk.bundles)
            && r.m.disk.files in {m.disk.files, staged} && (bootstrap ==> r.m.disk.files == m.disk.files)
            && r.m.disk.bundles - {id} == m.disk.bundles - {id})
      && (r.Go? ==>
            && EncodablePlan(plan) && ValidJournal(journal)
            && r.m.disk == m.disk.(pointer := Some(PointerOf(journal)), bundles := r.m.disk.bundles, files := staged)
            && r.m.disk.bundles - {id} == m.disk.bundles - {id} && id in r.m.disk.bundles
            && FreshBundle(root, if bootstrap then m.disk.files else staged, plan, journal, r.m.disk.bundles[id]))
      && (r.Go? ==> r.m.left >= m.left - (|plan.changes| + 7))
  {
    hide EncodablePlan, ValidJournal, FreshBundle, StageRecords, FitsRecord;
    if !(bootstrap && m.left == 0) {
      var m1 := if bootstrap then m.(left := m.left - 1) else m;
      var r2 := StageRecoveryRoot(m1, bootstrap);
      if r2.Go? {
        RecordsAreStaged(root, r2.m, plan, journal, bootstrap);
      }
    }
  }

  /** With nothing in the way but the write budget, staging goes through. */
  lemma StagingGoesThrough(root: Root, m: Machine, plan: Plan, journal: Journal)
    requires NAMESPACE in m.disk.files && journal.transactionID !in m.disk.bundles
    requires RECOVERY_ROOT in m.disk.files ==> m.disk.files[RECOVERY_ROOT].Directory?
    requires EncodablePlan(plan) && ValidJournal(journal)
    requires TargetsReadable(root, m.disk.files, plan.changes)
    requires m.left >= |plan.changes| + 6
    ensures Stage(root, m, plan, journal, false).Go?
  {
    hide EncodablePlan, ValidJournal, StageRecords, FreshBundle;
    var r2 := StageRecoveryRoot(m, false);
    RecordsAreStaged(root, r2.m, plan, journal, false);
    forall k | 0 <= k < |plan.changes| && NeedsBackup(plan.changes[k])
      ensures FitsRecord(r2.m.disk.files, plan.changes[k].path)
      ensures r2.m.disk.files[plan.changes[k].path] == m.disk.files[plan.changes[k].path]
    {
    }
  }
}
