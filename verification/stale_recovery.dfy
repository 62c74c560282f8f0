/** Recoveries overtaken by other recoveries: a recovery keeps the list and the bundle it has, from before it takes the
    lock, and checks behind the lock only the paths on that list. What it then does to a workspace that another recovery
    has moved on is exact here. */
module StaleRecoveries {
  import opened Wrappers
  import opened Records
  import opened Planning
  import opened Transactions
  import opened Engine
  import opened Invariants
  import opened ApplyProofs
  import opened RecoveryProofs
  import opened RedoUndoProofs
  import opened RecoveryOutcomes
  import opened Runs

  // ----- Publishing any list -----

  /** The paths of the list differ, and each change finds its before state. */
  ghost predicate Publishing(root: Root, files: Files, list: seq<Change>) {
    && (forall i, k :: 0 <= i < k < |list| ==> list[i].path != list[k].path)
    && forall u :: u in list ==> Publishable(u) && root.resolves(u.path) && Look(files, u.path) == BeforeState(u)
  }

  /** Every path of the list is after and every other as it was. */
  ghost predicate PublishedList(files: Files, files': Files, list: seq<Change>) {
    && (forall u :: u in list ==> Look(files', u.path) == AfterState(u))
    && forall q :: (forall u :: u in list ==> u.path != q) ==> Get(files', q) == Get(files, q)
  }

  lemma RestIsPublishing(root: Root, files: Files, files': Files, c: Change, rest: seq<Change>)
    requires Publishing(root, files, [c] + rest) && MovedOnly(files, files', c.path)
    ensures Publishing(root, files', rest) && forall u :: u in rest ==> u.path != c.path
  {
    hide Publishable, Look, BeforeState;
    var list := [c] + rest;
    assert forall i :: 0 <= i < |rest| ==> list[i + 1] == rest[i];
    forall u | u in rest
      ensures u.path != c.path && Look(files', u.path) == Look(files, u.path) && u in list
    {
      var i :| 0 <= i < |rest| && rest[i] == u;
      assert list[0] == c && list[i + 1] == u;
      SameEntrySameLook(files, files', u.path);
    }
  }

  lemma PublishedOneMore(files: Files, files1: Files, files2: Files, c: Change, rest: seq<Change>)
    requires MovedOnly(files, files1, c.path) && Look(files1, c.path) == AfterState(c)
    requires PublishedList(files1, files2, rest) && forall u :: u in rest ==> u.path != c.path
    ensures PublishedList(files, files2, [c] + rest)
  {
    hide Look, AfterState;
    SameEntrySameLook(files1, files2, c.path);
    forall u | u in [c] + rest
      ensures Look(files2, u.path) == AfterState(u)
    {
      assert u == c || u in rest;
    }
    forall q | forall u :: u in [c] + rest ==> u.path != q
      ensures Get(files2, q) == Get(files, q)
    {
      assert c in [c] + rest && forall u :: u in rest ==> u in [c] + rest;
    }
  }

  lemma {:induction false} ListIsPublished(root: Root, m: Machine, list: seq<Change>)
    requires Publishing(root, m.disk.files, list) && m.left >= |list|
    ensures var r := PublishList(root, m, list);
      && r == Go(Machine(m.disk.(files := r.m.disk.files), m.left - |list|))
      && PublishedList(m.disk.files, r.m.disk.files, list)
    decreases |list|
  {
    hide Publishable, Published, Look, BeforeState, AfterState, MovedOnly;
    if list != [] {
      var c, rest := list[0], list[1..];
      assert list == [c] + rest && c in list;
      PublishHead(root, m, c, rest);
      hide PublishList, Publishing, PublishedList;
      var m' := Machine(m.disk.(files := Published(m.disk.files, c)), m.left - 1);
      RestIsPublishing(root, m.disk.files, m'.disk.files, c, rest);
      ListIsPublished(root, m', rest);
      PublishedOneMore(m.disk.files, m'.disk.files, PublishList(root, m', rest).m.disk.files, c, rest);
    }
  }

  // ----- What is on a recovery's list -----

  /** The list made from these files moves path x. */
  predicate OnList(t: Txn, seen: Files, x: nat, action: RecoveryAction)
    requires x < t.Size()
  {
    Look(seen, t.plan.changes[x].path) != Side(t.plan.changes[x], action)
  }

  /** The entry of the list for change x. */
  ghost function TurnOf(t: Txn, d: Disk, action: RecoveryAction, x: nat): Change
    requires Live(t, d) && x < |JournalAt(t, d).actions|
  {
    if action == Rollback then UndoOf(JournalAt(t, d), ObservationAt(t, d), x) else JournalAt(t, d).actions[x].change
  }

  /** Indices rise or fall along the list, so no path comes twice. */
  ghost predicate Separate(list: seq<Change>, size: nat) {
    |list| <= size && forall i, k :: 0 <= i < k < |list| ==> list[i].path != list[k].path
  }

  lemma UndoPath(j: Journal, o: Observation, x: nat)
    requires x < |j.actions|
    ensures UndoOf(j, o, x).path == j.actions[x].change.path
  {
  }

  ghost predicate ActionsDiffer(j: Journal) {
    forall x, y :: 0 <= x < y < |j.actions| ==> j.actions[x].change.path != j.actions[y].change.path
  }

  lemma HeadSeparates(u: Change, rest: seq<Change>, size: nat)
    requires Separate(rest, size) && forall v :: v in rest ==> v.path != u.path
    ensures Separate([u] + rest, size + 1)
  {
    forall i, k | 0 <= i < k < |[u] + rest|
      ensures ([u] + rest)[i].path != ([u] + rest)[k].path
    {
      assert ([u] + rest)[k] in rest;
    }
  }

  lemma {:induction false} UndoSeparates(j: Journal, o: Observation, i: nat)
    requires i <= |j.actions| && ActionsDiffer(j)
    ensures Separate(UndoBelow(j, o, i), i)
  {
    hide MatchesBefore, LiveState, UndoOf, UndoStep, Separate;
    if i > 0 {
      var rest := UndoBelow(j, o, i - 1);
      UndoSeparates(j, o, i - 1);
      UndoStepIs(j, o, i - 1);
      UndoRestDiffers(j, o, i);
      UndoPath(j, o, i - 1);
      HeadSeparates(UndoOf(j, o, i - 1), rest, i - 1);
      MoreRoom(rest, i - 1);
      NoStep(rest);
    } else {
      NothingSeparates();
    }
  }

  lemma NothingSeparates()
    ensures Separate([], 0)
  {
  }

  lemma MoreRoom(list: seq<Change>, size: nat)
    requires Separate(list, size)
    ensures Separate(list, size + 1)
  {
  }

  lemma UndoRestDiffers(j: Journal, o: Observation, i: nat)
    requires 0 < i <= |j.actions| && ActionsDiffer(j)
    ensures forall u :: u in UndoBelow(j, o, i - 1) ==> u.path != j.actions[i - 1].change.path
  {
    hide MatchesBefore, LiveState, UndoOf, UndoBelow;
    UndoMembers(j, o, i - 1);
    forall u | u in UndoBelow(j, o, i - 1)
      ensures u.path != j.actions[i - 1].change.path
    {
      var x :| 0 <= x < i - 1 && u == UndoOf(j, o, x);
      UndoPath(j, o, x);
    }
  }

  lemma UndoStepIs(j: Journal, o: Observation, x: nat)
    requires x < |j.actions|
    ensures var c := j.actions[x].change;
      UndoStep(j, o, x) == if MatchesBefore(c, LiveState(o, c.path)) then [] else [UndoOf(j, o, x)]
  {
  }

  lemma RedoRestDiffers(j: Journal, o: Observation, i: nat)
    requires i < |j.actions| && ActionsDiffer(j)
    ensures forall u :: u in RedoFrom(j, o, i + 1) ==> u.path != j.actions[i].change.path
  {
    hide MatchesAfter, LiveState, RedoFrom;
    RedoMembers(j, o, i + 1);
  }

  lemma RedoStepIs(j: Journal, o: Observation, x: nat)
    requires x < |j.actions|
    ensures var c := j.actions[x].change;
      RedoStep(j, o, x) == if MatchesAfter(c, LiveState(o, c.path)) then [] else [c]
  {
  }

  lemma {:induction false} RedoSeparates(j: Journal, o: Observation, i: nat)
    requires i <= |j.actions| && ActionsDiffer(j)
    ensures Separate(RedoFrom(j, o, i), |j.actions| - i)
    ensures forall x :: i <= x < |j.actions| && !MatchesAfter(j.actions[x].change, LiveState(o, j.actions[x].change.path)) ==>
      j.actions[x].change in RedoFrom(j, o, i)
    decreases |j.actions| - i
  {
    hide MatchesAfter, LiveState, RedoStep, Separate, ActionsDiffer;
    if i < |j.actions| {
      var rest := RedoFrom(j, o, i + 1);
      RedoSeparates(j, o, i + 1);
      RedoStepIs(j, o, i);
      RedoRestDiffers(j, o, i);
      HeadSeparates(j.actions[i].change, rest, |j.actions| - (i + 1));
      MoreRoom(rest, |j.actions| - (i + 1));
      NoStep(rest);
    } else {
      NothingSeparates();
    }
  }

  /** What the list is, action by action. */
  ghost predicate Turns(t: Txn, d: Disk, action: RecoveryAction, list: seq<Change>)
    requires Live(t, d) && |JournalAt(t, d).actions| == t.Size()
  {
    && Separate(list, t.Size())
    && (forall x :: 0 <= x < t.Size() && OnList(t, d.files, x, action) ==> TurnOf(t, d, action, x) in list)
    && (forall u :: u in list ==> exists x :: 0 <= x < t.Size() && OnList(t, d.files, x, action) && u == TurnOf(t, d, action, x))
  }

  ghost predicate ActionsSeen(t: Txn, d: Disk, j: Journal, o: Observation)
    requires |j.actions| == t.Size()
  {
    && ActionsDiffer(j)
    && forall x :: 0 <= x < t.Size() ==>
         var c := j.actions[x].change;
         && (OnList(t, d.files, x, Rollback) <==> !MatchesBefore(c, LiveState(o, c.path)))
         && (OnList(t, d.files, x, Continue) <==> !MatchesAfter(c, LiveState(o, c.path)))
  }

  lemma SeenIsListed(t: Txn, d: Disk, j: Journal, o: Observation)
    requires |j.actions| == t.Size() && Seen(t, j, o, d.files, 0, t.Size()) && DistinctPaths(t.plan.changes)
    ensures ActionsSeen(t, d, j, o)
  {
    hide MatchesBefore, MatchesAfter, LiveState, Look, BeforeState, AfterState;
  }

  lemma ActionsAreSeen(t: Txn, d: Disk)
    requires Sound(t) && Holds(t, d)
    ensures |JournalAt(t, d).actions| == t.Size() && ActionsSeen(t, d, JournalAt(t, d), ObservationAt(t, d))
  {
    hide Sound, Live, EitherWay, Framed, ObservationAt, JournalAt, Seen, ActionsSeen, DistinctPaths;
    SidesAreSeen(t, d);
    PathsAreDistinct(t);
    SeenIsListed(t, d, JournalAt(t, d), ObservationAt(t, d));
  }

  lemma PathsAreDistinct(t: Txn)
    requires Sound(t)
    ensures DistinctPaths(t.plan.changes)
  {
    hide DistinctPaths;
    SoundFacts(t);
  }

  lemma UndoTurns(t: Txn, d: Disk, j: Journal, o: Observation)
    requires |j.actions| == t.Size() && ActionsSeen(t, d, j, o)
    ensures var list := UndoBelow(j, o, |j.actions|);
      && Separate(list, t.Size())
      && (forall x :: 0 <= x < t.Size() && OnList(t, d.files, x, Rollback) ==> UndoOf(j, o, x) in list)
      && (forall u :: u in list ==> exists x :: 0 <= x < t.Size() && OnList(t, d.files, x, Rollback) && u == UndoOf(j, o, x))
  {
    hide OnList, MatchesBefore, MatchesAfter, LiveState, UndoOf, UndoBelow;
    UndoSeparates(j, o, |j.actions|);
    UndoMembers(j, o, |j.actions|);
  }

  lemma RedoTurns(t: Txn, d: Disk, j: Journal, o: Observation)
    requires |j.actions| == t.Size() && ActionsSeen(t, d, j, o)
    ensures var list := RedoFrom(j, o, 0);
      && Separate(list, t.Size())
      && (forall x :: 0 <= x < t.Size() && OnList(t, d.files, x, Continue) ==> j.actions[x].change in list)
      && (forall u :: u in list ==> exists x :: 0 <= x < t.Size() && OnList(t, d.files, x, Continue) && u == j.actions[x].change)
  {
    hide OnList, MatchesBefore, MatchesAfter, LiveState, RedoFrom;
    RedoSeparates(j, o, 0);
    RedoMembers(j, o, 0);
  }

  lemma ListTurns(t: Txn, d: Disk, action: RecoveryAction)
    requires Sound(t) && Holds(t, d) && action in {Rollback, Continue}
    ensures |JournalAt(t, d).actions| == t.Size() && Turns(t, d, action, RecoveryList(t, d, action))
  {
    hide Sound, Live, EitherWay, Framed, ObservationAt, JournalAt, ActionsSeen, OnList, UndoOf, UndoBelow, RedoFrom, Separate;
    ActionsAreSeen(t, d);
    UndoTurns(t, d, JournalAt(t, d), ObservationAt(t, d));
    RedoTurns(t, d, JournalAt(t, d), ObservationAt(t, d));
  }

  /** An entry of the list takes its path from where the evidence saw it to the chosen side, and a made directory cannot be
      taken back. */
  lemma TurnFacts(t: Txn, d: Disk, files: Files, action: RecoveryAction, x: nat)
    requires Sound(t) && Holds(t, d) && action in {Rollback, Continue} && x < t.Size() && OnList(t, d.files, x, action)
    ensures |JournalAt(t, d).actions| == t.Size()
    ensures var u, c := TurnOf(t, d, action, x), t.plan.changes[x];
      && u.path == c.path && t.root.resolves(c.path)
      && (BeforeHolds(t.root, files, u)
          <==> Look(files, c.path) == Look(d.files, c.path) && !(action == Rollback && c.kind == CreateDir))
      && (!(action == Rollback && c.kind == CreateDir) ==>
            Publishable(u) && BeforeState(u) == Look(d.files, c.path) && AfterState(u) == Side(c, action))
  {
    hide Sound, Live, EitherWay, Framed, ObservationAt, Look, BackupContent, Undo, BeforeState, AfterState, BeforeHolds, NeedsBackup,
      Publishable;
    var j, o := JournalAt(t, d), ObservationAt(t, d);
    var c := t.plan.changes[x];
    SidesAreSeen(t, d);
    SoundEntry(t, d.files, x);
    assert j.actions[x].change == c;
    if action == Continue {
      BeforeHoldsMeansBefore(t.root, files, c);
    } else if c.kind == CreateDir {
      UndoPath(j, o, x);
      DirectoryUndoFails(t.root, files, j.actions[x], BackupContent(o, x), (|j.actions| - x) * 10);
    } else {
      BackupsHoldBefore(t, d);
      UndoIsInverse(j.actions[x], BackupContent(o, x), (|j.actions| - x) * 10);
      BeforeHoldsMeansBefore(t.root, files, UndoOf(j, o, x));
    }
  }

  // ----- The overtaken recovery -----

  /** Every path the list moves is where the evidence saw it, and no made directory is on the list. */
  ghost predicate Undisturbed(t: Txn, seen: Files, files: Files, action: RecoveryAction) {
    forall x :: 0 <= x < t.Size() && OnList(t, seen, x, action) ==>
      var c := t.plan.changes[x];
      Look(files, c.path) == Look(seen, c.path) && !(action == Rollback && c.kind == CreateDir)
  }

  /** Every path on the list is on the chosen side, every other path of the plan as it was. */
  ghost predicate TurnedOver(t: Txn, seen: Files, files: Files, files': Files, action: RecoveryAction) {
    forall x :: 0 <= x < t.Size() ==>
      var c := t.plan.changes[x];
      Look(files', c.path) == if OnList(t, seen, x, action) then Side(c, action) else Look(files, c.path)
  }

  lemma StaleListPasses(t: Txn, d: Disk, files: Files, action: RecoveryAction)
    requires Sound(t) && Holds(t, d) && action in {Rollback, Continue}
    ensures AllBeforeHold(t.root, files, RecoveryList(t, d, action)) <==> Undisturbed(t, d.files, files, action)
  {
    hide Sound, Live, EitherWay, Framed, JournalAt, RecoveryList, TurnOf, Look, Side, BeforeHolds, OnList, Separate;
    var list := RecoveryList(t, d, action);
    ListTurns(t, d, action);
    forall x | 0 <= x < t.Size() && OnList(t, d.files, x, action)
      ensures TurnOf(t, d, action, x) in list
      ensures BeforeHolds(t.root, files, TurnOf(t, d, action, x)) <==>
        Look(files, t.plan.changes[x].path) == Look(d.files, t.plan.changes[x].path)
        && !(action == Rollback && t.plan.changes[x].kind == CreateDir)
    {
      TurnFacts(t, d, files, action, x);
    }
    assert AllBeforeHold(t.root, files, list) <==> forall u :: u in list ==> BeforeHolds(t.root, files, u);
  }

  lemma StaleListIsPublishing(t: Txn, d: Disk, files: Files, action: RecoveryAction)
    requires Sound(t) && Holds(t, d) && action in {Rollback, Continue} && Undisturbed(t, d.files, files, action)
    ensures Publishing(t.root, files, RecoveryList(t, d, action)) && |RecoveryList(t, d, action)| <= t.Size()
  {
    hide Sound, Live, EitherWay, Framed, JournalAt, RecoveryList, TurnOf, Look, Side, BeforeHolds, OnList, Publishable, BeforeState,
      AfterState;
    var list := RecoveryList(t, d, action);
    ListTurns(t, d, action);
    forall u | u in list
      ensures Publishable(u) && t.root.resolves(u.path) && Look(files, u.path) == BeforeState(u)
    {
      var x :| 0 <= x < t.Size() && OnList(t, d.files, x, action) && u == TurnOf(t, d, action, x);
      TurnFacts(t, d, files, action, x);
    }
  }

  /** A path that no entry of the list is for. */
  lemma UnlistedPath(t: Txn, d: Disk, action: RecoveryAction, q: string)
    requires Sound(t) && Holds(t, d) && action in {Rollback, Continue}
    requires forall x :: 0 <= x < t.Size() && OnList(t, d.files, x, action) ==> t.plan.changes[x].path != q
    ensures forall u :: u in RecoveryList(t, d, action) ==> u.path != q
  {
    hide Sound, Live, EitherWay, Framed, JournalAt, RecoveryList, TurnOf, OnList, Separate;
    ListTurns(t, d, action);
    forall u | u in RecoveryList(t, d, action)
      ensures u.path != q
    {
      var x :| 0 <= x < t.Size() && OnList(t, d.files, x, action) && u == TurnOf(t, d, action, x);
      TurnFacts(t, d, d.files, action, x);
    }
  }

  lemma PathIsTurned(t: Txn, d: Disk, files: Files, files': Files, action: RecoveryAction, x: nat)
    requires Sound(t) && Holds(t, d) && action in {Rollback, Continue} && Undisturbed(t, d.files, files, action) && x < t.Size()
    requires PublishedList(files, files', RecoveryList(t, d, action))
    ensures var c := t.plan.changes[x];
      Look(files', c.path) == if OnList(t, d.files, x, action) then Side(c, action) else Look(files, c.path)
  {
    hide Sound, Live, EitherWay, Framed, RecoveryList, TurnOf, Look, Side, OnList, Publishable, BeforeState, AfterState, Separate,
      BeforeHolds;
    var c := t.plan.changes[x];
    if OnList(t, d.files, x, action) {
      TurnFacts(t, d, files, action, x);
      ListTurns(t, d, action);
      assert TurnOf(t, d, action, x) in RecoveryList(t, d, action);
    } else {
      OtherPathsDiffer(t, x);
      assert forall y :: 0 <= y < t.Size() && OnList(t, d.files, y, action) ==> y != x;
      UnlistedPath(t, d, action, c.path);
      SameEntrySameLook(files, files', c.path);
    }
  }

  lemma OtherPathsDiffer(t: Txn, x: nat)
    requires Sound(t) && x < t.Size()
    ensures forall y :: 0 <= y < t.Size() && y != x ==> t.plan.changes[y].path != t.plan.changes[x].path
  {
    SoundFacts(t);
    hide Sound, StagedAction, ValidJournal, ValidPointer, PlanAgrees;
  }

  lemma PublishedIsTurned(t: Txn, d: Disk, files: Files, files': Files, action: RecoveryAction)
    requires Sound(t) && Holds(t, d) && action in {Rollback, Continue} && Undisturbed(t, d.files, files, action)
    requires PublishedList(files, files', RecoveryList(t, d, action))
    ensures TurnedOver(t, d.files, files, files', action) && OutsideKept(t, files, files')
  {
    hide Sound, Holds, RecoveryList, Look, Side, OnList, AfterState, Undisturbed;
    forall x | 0 <= x < t.Size()
      ensures var c := t.plan.changes[x];
        Look(files', c.path) == if OnList(t, d.files, x, action) then Side(c, action) else Look(files, c.path)
    {
      PathIsTurned(t, d, files, files', action, x);
    }
    forall q | q !in ChangePaths(t.plan.changes)
      ensures Get(files', q) == Get(files, q)
    {
      PathsOfPlan(t, q);
      UnlistedPath(t, d, action, q);
    }
  }

  lemma PathsOfPlan(t: Txn, q: string)
    requires q !in ChangePaths(t.plan.changes)
    ensures forall x :: 0 <= x < t.Size() ==> t.plan.changes[x].path != q
  {
    forall x | 0 <= x < t.Size()
      ensures t.plan.changes[x].path != q
    {
      assert t.plan.changes[x] in t.plan.changes;
    }
  }

  /** The end of a recovery on any disk: the paths of the plan keep their entries, and where the migration receipt is not in
      the way the live pointer is gone; that there was none is an error. */
  lemma FinishAnywhere(t: Txn, m: Machine, bundle: Bundle, action: RecoveryAction, now: int)
    requires Sound(t) && BundleFor(t, bundle) && m.left >= 3 && action in {Rollback, Continue}
    ensures var r := FinishRecovery(t.root, m, bundle, action, now);
      && SameTargets(t, m.disk.files, r.m.disk.files) && (m.disk.pointer.None? ==> r.Halt? && r.m.disk.pointer.None?)
      && (action == Rollback || ReceiptAccepted(t, m.disk.files, now) ==>
            r.m.disk.pointer.None? && (r.Go? <==> m.disk.pointer.Some?))
  {
    hide Sound, ReceiptFor, ReceiptHashes, Canonically, ReceiptAccepted, WriteMigrationReceipt;
    SameTargetsAsSelf(t, m.disk.files);
    if action == Continue {
      OriginalIsOrdered(t);
      ReceiptAcceptance(t, m, now);
      ReceiptMovesOnlyItself(t, m, now);
    }
  }

  lemma ReceiptMovesOnlyItself(t: Txn, m: Machine, now: int)
    requires Sound(t)
    ensures var r := WriteMigrationReceipt(t.root, m, t.plan.id, t.plan.metadata, t.plan.changes, now);
      && r.m.disk == m.disk.(files := r.m.disk.files) && SameTargets(t, m.disk.files, r.m.disk.files)
  {
    hide Sound, ReceiptFor;
    var receipt := ReceiptFor(t.plan.id, t.plan.metadata, t.plan.changes, now);
    ReceiptMovesNoTarget(t, m.disk.files, File(t.root.encodeReceipt(receipt), PRIVATE_FILE_MODE));
  }

  /** A recovery with evidence and list from d on whatever disk it finds when it gets the lock. It is refused, with nothing
      changed, exactly when a path on its list has moved or a made directory is on it; otherwise it moves exactly the
      listed paths to its side, leaves the others where they are, and ends the transaction. */
  lemma OvertakenRecovery(t: Txn, d: Disk, found: Disk, plan: Plan, bundle: Bundle, action: RecoveryAction, writes: nat, now: int)
    requires Sound(t) && Holds(t, d) && action in {Rollback, Continue} && PlanIs(t, d, plan, action) && BundleFor(t, bundle)
    requires !found.locked && writes >= t.Size() + 4
    ensures var r := RecoverLoaded(t.root, Machine(found, writes), plan, bundle, now);
      && (!Undisturbed(t, d.files, found.files, action) ==> r.Halt? && r.m.disk == found)
      && (Undisturbed(t, d.files, found.files, action) ==>
            && TurnedOver(t, d.files, found.files, r.m.disk.files, action)
            && (found.pointer.None? ==> r.Halt? && r.m.disk.pointer.None?)
            && (action == Rollback || ReceiptAccepted(t, found.files, now) ==>
                  r.m.disk.pointer.None? && (r.Go? <==> found.pointer.Some?)))
  {
    hide Sound, Holds, BundleFor, AllBeforeHold, Undisturbed, TurnedOver, RecoveryList, PublishList, FinishRecovery, ReceiptAccepted,
      SameTargets, OutsideKept, PublishedList, Publishing;
    var m := Machine(found.(locked := true), writes - 1);
    StaleListPasses(t, d, found.files, action);
    if Undisturbed(t, d.files, found.files, action) {
      StaleListIsPublishing(t, d, found.files, action);
      ListIsPublished(t.root, m, plan.changes);
      var r1 := PublishList(t.root, m, plan.changes);
      PublishedIsTurned(t, d, found.files, r1.m.disk.files, action);
      FinishAnywhere(t, r1.m, bundle, action, now);
      ReceiptIsOutside(t, found.files, r1.m.disk.files, now);
      var r2 := FinishRecovery(t.root, r1.m, bundle, action, now);
      TurnedStays(t, d.files, found.files, r1.m.disk.files, r2.m.disk.files, action);
    }
  }

  lemma TurnedStays(t: Txn, seen: Files, files: Files, files': Files, files'': Files, action: RecoveryAction)
    requires TurnedOver(t, seen, files, files', action) && SameTargets(t, files', files'')
    ensures TurnedOver(t, seen, files, files'', action)
  {
    hide Look, Side, OnList;
    forall x | 0 <= x < t.Size()
      ensures Look(files'', t.plan.changes[x].path) == Look(files', t.plan.changes[x].path)
    {
      SameEntrySameLook(files', files'', t.plan.changes[x].path);
    }
  }

  // ----- The second of two recoveries -----

  /** The first k paths are before and the others after, the wrong way round for any publication. */
  ghost predicate Inverted(t: Txn, files: Files, k: nat) {
    && k <= t.Size()
    && (forall i :: 0 <= i < k ==> Look(files, t.plan.changes[i].path) == BeforeState(t.plan.changes[i]))
    && (forall i :: k <= i < t.Size() ==> Look(files, t.plan.changes[i].path) == AfterState(t.plan.changes[i]))
  }

  /** Every change changes what is seen at its path. */
  ghost predicate Loud(t: Txn) {
    forall c :: c in t.plan.changes ==> BeforeState(c) != AfterState(c)
  }

  lemma InvertedIsMixed(t: Txn, files: Files, k: nat)
    requires Inverted(t, files, k) && Loud(t)
    ensures AllBeforeState(t, files) <==> k == t.Size()
    ensures AllAfterState(t, files) <==> k == 0
  {
    hide Look, BeforeState, AfterState;
    assert forall i :: 0 <= i < t.Size() ==> t.plan.changes[i] in t.plan.changes;
    if k < t.Size() {
      assert Look(files, t.plan.changes[k].path) == AfterState(t.plan.changes[k]);
    }
    if k > 0 {
      assert Look(files, t.plan.changes[0].path) == BeforeState(t.plan.changes[0]);
    }
  }

  lemma SettledIsUndisturbed(t: Txn, seen: Files, files: Files, k: nat, action: RecoveryAction)
    requires AtPrefix(t, seen, k) && action in {Rollback, Continue} && Reached(t, files, Opposite(action))
    requires action == Rollback ==> NoDirectoryMade(t, seen)
    ensures Undisturbed(t, seen, files, action)
  {
    hide Look, BeforeState, AfterState;
  }

  lemma TurnedIsInverted(t: Txn, seen: Files, files: Files, files': Files, k: nat, action: RecoveryAction)
    requires AtPrefix(t, seen, k) && action in {Rollback, Continue} && Reached(t, files, Opposite(action))
    requires TurnedOver(t, seen, files, files', action)
    ensures Inverted(t, files', k)
  {
    hide Look, BeforeState, AfterState;
  }

  function Opposite(action: RecoveryAction): RecoveryAction {
    if action == Rollback then Continue else Rollback
  }

  lemma SettledIsReached(t: Txn, d: Disk, a: Attempt)
    requires Sound(t) && Holds(t, d) && !d.locked && a.action in {Rollback, Continue} && Attempted(t.root, d, a).Go?
    ensures var found := Attempted(t.root, d, a).m.disk;
      found.pointer.None? && !found.locked && Reached(t, found.files, a.action)
  {
    hide Sound, Holds, Reached, Attempted, Framed, Offers;
    var k := RecoveryKeeps(t, d, a, 0, false);
  }

  /** Two recoveries that both loaded their evidence before either took the lock, in opposite directions: the first settles
      the transaction, and the second still passes its check, moves the published paths, and only they, to its own side, and
      fails for want of a live pointer. What was published then is before and the rest after, so the workspace is on one side
      exactly when nothing or everything had been published, and no transaction is left to recover it. */
  lemma OppositeRecoveriesMix(t: Txn, d: Disk, k: nat, a: Attempt, plan: Plan, bundle: Bundle, writes: nat, now: int)
    requires Sound(t) && Holds(t, d) && !d.locked && AtPrefix(t, d.files, k)
    requires a.action in {Rollback, Continue} && Attempted(t.root, d, a).Go?
    requires PlanIs(t, d, plan, Opposite(a.action)) && BundleFor(t, bundle) && writes >= t.Size() + 4
    requires a.action == Continue ==> NoDirectoryMade(t, d.files)
    ensures var r := RecoverLoaded(t.root, Machine(Attempted(t.root, d, a).m.disk, writes), plan, bundle, now);
      && r.Halt? && r.m.disk.pointer.None? && Inverted(t, r.m.disk.files, k)
      && (Loud(t) ==> (AllBeforeState(t, r.m.disk.files) <==> k == t.Size()) && (AllAfterState(t, r.m.disk.files) <==> k == 0))
  {
    hide Sound, Holds, AtPrefix, Attempted, PlanIs, BundleFor, NoDirectoryMade, RecoverLoaded, Reached, Inverted, Loud, AllBeforeState,
      AllAfterState, TurnedOver, Undisturbed, ReceiptAccepted;
    var found := Attempted(t.root, d, a).m.disk;
    var action := Opposite(a.action);
    SettledIsReached(t, d, a);
    OvertakenRecovery(t, d, found, plan, bundle, action, writes, now);
    SettledIsUndisturbed(t, d.files, found.files, k, action);
    var r := RecoverLoaded(t.root, Machine(found, writes), plan, bundle, now);
    TurnedIsInverted(t, d.files, found.files, r.m.disk.files, k, action);
    if Loud(t) {
      InvertedIsMixed(t, r.m.disk.files, k);
    }
  }

  lemma SameSideStays(t: Txn, seen: Files, files: Files, files': Files, action: RecoveryAction)
    requires action in {Rollback, Continue} && Reached(t, files, action) && TurnedOver(t, seen, files, files', action)
    ensures Reached(t, files', action)
  {
    hide Look, BeforeState, AfterState;
  }

  /** In the same direction the second fails and leaves every path where the first took it. */
  lemma SameRecoveryIsHarmless(t: Txn, d: Disk, a: Attempt, plan: Plan, bundle: Bundle, writes: nat, now: int)
    requires Sound(t) && Holds(t, d) && !d.locked && a.action in {Rollback, Continue} && Attempted(t.root, d, a).Go?
    requires PlanIs(t, d, plan, a.action) && BundleFor(t, bundle) && writes >= t.Size() + 4
    ensures var r := RecoverLoaded(t.root, Machine(Attempted(t.root, d, a).m.disk, writes), plan, bundle, now);
      r.Halt? && r.m.disk.pointer.None? && Reached(t, r.m.disk.files, a.action)
  {
    hide Sound, Holds, Attempted, PlanIs, BundleFor, RecoverLoaded, Reached, TurnedOver, Undisturbed, ReceiptAccepted;
    var found := Attempted(t.root, d, a).m.disk;
    SettledIsReached(t, d, a);
    OvertakenRecovery(t, d, found, plan, bundle, a.action, writes, now);
    if Undisturbed(t, d.files, found.files, a.action) {
      SameSideStays(t, d.files, found.files, RecoverLoaded(t.root, Machine(found, writes), plan, bundle, now).m.disk.files, a.action);
    }
  }

  // ----- A plan that is out of date -----

  /** The transaction has stood still or moved the other way since the plan was made. */
  predicate NotAhead(action: RecoveryAction, k: nat, k': nat) {
    if action == Rollback then k <= k' else k' <= k
  }

  lemma PrefixIsUndisturbed(t: Txn, seen: Files, files: Files, k: nat, k': nat, action: RecoveryAction)
    requires AtPrefix(t, seen, k) && AtPrefix(t, files, k') && action in {Rollback, Continue} && Loud(t)
    requires action == Rollback ==> NoDirectoryMade(t, seen)
    ensures Undisturbed(t, seen, files, action) <==> NotAhead(action, k, k')
  {
    hide Look, BeforeState, AfterState;
    assert forall i :: 0 <= i < t.Size() ==> t.plan.changes[i] in t.plan.changes;
    if action == Rollback && k' < k {
      assert OnList(t, seen, k', action);
    }
    if action == Continue && k < k' {
      assert OnList(t, seen, k, action);
    }
  }

  /** Exactly the paths between the two prefixes are on the other side. */
  ghost predicate Split(t: Txn, files: Files, action: RecoveryAction, k: nat, k': nat) {
    forall i :: 0 <= i < t.Size() ==>
      var c := t.plan.changes[i];
      Look(files, c.path) == Side(c, if k <= i < k' || k' <= i < k then Opposite(action) else action)
  }

  lemma TurnedIsSplit(t: Txn, seen: Files, files: Files, files': Files, k: nat, k': nat, action: RecoveryAction)
    requires AtPrefix(t, seen, k) && AtPrefix(t, files, k') && action in {Rollback, Continue} && NotAhead(action, k, k')
    requires TurnedOver(t, seen, files, files', action)
    ensures Split(t, files', action, k, k')
  {
    hide Look, BeforeState, AfterState;
  }

  lemma SplitIsReached(t: Txn, files: Files, k: nat, k': nat, action: RecoveryAction)
    requires Split(t, files, action, k, k') && action in {Rollback, Continue} && Loud(t) && k <= t.Size() && k' <= t.Size()
    ensures Reached(t, files, action) <==> k == k'
  {
    hide Look, BeforeState, AfterState;
    assert forall i :: 0 <= i < t.Size() ==> t.plan.changes[i] in t.plan.changes;
    if k != k' {
      var x := if k < k' then k else k';
      assert Look(files, t.plan.changes[x].path) == Side(t.plan.changes[x], Opposite(action));
    }
  }

  lemma RunLoads(t: Txn, d: Disk, found: Disk, plan: Plan, action: RecoveryAction, writes: nat, now: int)
    requires Sound(t) && Live(t, d) && Live(t, found) && JournalAt(t, found) == JournalAt(t, d) && InputsResolve(t.root, t.plan)
    requires action in {Rollback, Continue} && PlanIs(t, d, plan, action)
    ensures RecoveryRun(t.root, Machine(found, writes), plan, plan.id, now)
         == RecoverLoaded(t.root, Machine(found, writes), plan, LoadedBundle(t, found), now)
    ensures BundleFor(t, LoadedBundle(t, found))
  {
    hide Sound, BundleKept, LoadSnapshot, InputsResolve, ObserveAll, RecoverLoaded, RecoveryList;
    SnapshotLoads(t, found);
    LoadedIsFor(t, found);
  }

  lemma PrefixIsBounded(t: Txn, files: Files, k: nat)
    requires AtPrefix(t, files, k)
    ensures k <= t.Size()
  {
  }

  /** Recoveries keep every journal. */
  ghost predicate JournalsKept(d: Disk, d': Disk) {
    forall id :: id in d.bundles ==> id in d'.bundles && d'.bundles[id].journal == d.bundles[id].journal
  }

  lemma {:induction false} ListKeepsRecords(root: Root, m: Machine, list: seq<Change>)
    ensures PublishList(root, m, list).m.disk == m.disk.(files := PublishList(root, m, list).m.disk.files)
    decreases |list|
  {
    hide Published, AfterHolds;
    if list != [] {
      var r := Publish(m, list[0]);
      if r.Go? {
        ListKeepsRecords(root, r.m, list[1..]);
      }
    }
  }

  lemma FinishKeepsJournals(root: Root, m: Machine, bundle: Bundle, action: RecoveryAction, now: int)
    ensures JournalsKept(m.disk, FinishRecovery(root, m, bundle, action, now).m.disk)
  {
    hide ReceiptFor, ReceiptHashes, Canonically, CompletionReceipt;
  }

  lemma RecoveryKeepsJournals(root: Root, d: Disk, a: Attempt)
    ensures JournalsKept(d, Attempted(root, d, a).m.disk)
  {
    hide PlanRecovery, LoadSnapshot, PublishList, FinishRecovery, AllBeforeHold, MatchesEvidence;
    var plan := PlanRecovery(root, d, a.controllerID, a.reason, a.action);
    if plan.Ok? && LoadSnapshot(root, d).Ok? {
      var m := Machine(d.(locked := true), if a.writes > 0 then a.writes - 1 else 0);
      ListKeepsRecords(root, m, plan.value.changes);
      var r := PublishList(root, m, plan.value.changes);
      FinishKeepsJournals(root, r.m, LoadSnapshot(root, d).value.bundle, plan.value.metadata.recoveryAction, a.now);
    }
  }

  lemma {:induction false} AttemptsKeepJournals(root: Root, d: Disk, attempts: seq<Attempt>)
    ensures JournalsKept(d, AfterAttempts(root, d, attempts))
    decreases |attempts|
  {
    hide Attempted;
    if attempts != [] {
      RecoveryKeepsJournals(root, d, attempts[0]);
      AttemptsKeepJournals(root, Attempted(root, d, attempts[0]).m.disk, attempts[1..]);
    }
  }

  lemma FoundAfterAttempts(t: Txn, d: Disk, attempts: seq<Attempt>)
    requires Sound(t) && Holds(t, d) && !d.locked && Chosen(attempts) && AfterAttempts(t.root, d, attempts).pointer.Some?
    ensures var found := AfterAttempts(t.root, d, attempts);
      Holds(t, found) && !found.locked && JournalAt(t, found) == JournalAt(t, d)
  {
    hide Sound, EitherWay, Framed, BundleKept, AllAfterState, AllBeforeState, AfterAttempts;
    AttemptsKeepJournals(t.root, d, attempts);
    var k := AttemptsKeep(t, d, attempts, 0, false);
  }

  /** A recovery plan that is applied only after other attempts, each cut off anywhere, while the live pointer is still out:
      recoveries leave the journal alone, so the plan still matches. It is accepted, and reported as done, exactly when the
      transaction has not moved its way since; and then exactly what has moved the other way is left on the other side. */
  lemma StalePlanIsAccepted(t: Txn, d: Disk, attempts: seq<Attempt>, k: nat, k': nat, plan: Plan, action: RecoveryAction,
                            writes: nat, now: int)
    requires Sound(t) && Holds(t, d) && !d.locked && Chosen(attempts) && AfterAttempts(t.root, d, attempts).pointer.Some?
    requires AtPrefix(t, d.files, k) && AtPrefix(t, AfterAttempts(t.root, d, attempts).files, k')
    requires action in {Rollback, Continue} && PlanIs(t, d, plan, action) && InputsResolve(t.root, t.plan)
    requires Loud(t) && writes >= t.Size() + 4
    requires if action == Rollback then NoDirectoryMade(t, d.files)
             else ReceiptAccepted(t, AfterAttempts(t.root, d, attempts).files, now)
    ensures var found := AfterAttempts(t.root, d, attempts);
      var r := RecoveryRun(t.root, Machine(found, writes), plan, plan.id, now);
      && (r.Go? <==> NotAhead(action, k, k')) && (r.Halt? ==> r.m.disk == found)
      && (r.Go? ==>
            && r.m.disk.pointer.None? && Split(t, r.m.disk.files, action, k, k')
            && (Reached(t, r.m.disk.files, action) <==> k == k'))
  {
    PrefixIsBounded(t, d.files, k);
    PrefixIsBounded(t, AfterAttempts(t.root, d, attempts).files, k');
    hide Sound, EitherWay, Framed, BundleKept, AtPrefix, PlanIs, BundleFor, NoDirectoryMade, RecoverLoaded, RecoveryRun, Reached, Loud,
      TurnedOver, Undisturbed, ReceiptAccepted, InputsResolve, NotAhead, AfterAttempts, Split;
    var found := AfterAttempts(t.root, d, attempts);
    FoundAfterAttempts(t, d, attempts);
    RunLoads(t, d, found, plan, action, writes, now);
    OvertakenRecovery(t, d, found, plan, LoadedBundle(t, found), action, writes, now);
    PrefixIsUndisturbed(t, d.files, found.files, k, k', action);
    if NotAhead(action, k, k') {
      var r := RecoverLoaded(t.root, Machine(found, writes), plan, LoadedBundle(t, found), now);
      TurnedIsSplit(t, d.files, found.files, r.m.disk.files, k, k', action);
      SplitIsReached(t, r.m.disk.files, k, k', action);
    }
  }
}
