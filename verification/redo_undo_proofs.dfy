/** The two recovery lists: publishing them moves paths one at a time, in order, to one side. */
module RedoUndoProofs {
  import opened Wrappers
  import opened Records
  import opened Planning
  import opened Transactions
  import opened Engine
  import opened Invariants

  /** The observation tells the sides of paths lo to hi as they are. */
  ghost predicate Seen(t: Txn, j: Journal, o: Observation, files: Files, lo: nat, hi: nat)
    requires |j.actions| == t.Size() && hi <= t.Size()
  {
    forall k :: lo <= k < hi ==>
      var c := t.plan.changes[k];
      && j.actions[k].change == c
      && (MatchesBefore(c, LiveState(o, c.path)) <==> Look(files, c.path) == BeforeState(c))
      && (MatchesAfter(c, LiveState(o, c.path)) <==> Look(files, c.path) == AfterState(c))
  }

  /** One path moved; nothing else did. */
  ghost predicate MovedOnly(files: Files, files': Files, path: string) {
    forall q :: q != path ==> Get(files', q) == Get(files, q)
  }

  lemma MoveKeepsOthers(t: Txn, files: Files, files': Files, i: nat)
    requires DistinctPaths(t.plan.changes) && i < t.Size() && MovedOnly(files, files', t.plan.changes[i].path)
    ensures forall k :: 0 <= k < t.Size() && k != i ==> Look(files', t.plan.changes[k].path) == Look(files, t.plan.changes[k].path)
    ensures Framed(t, files) ==> Framed(t, files')
    ensures EitherWay(t, files) && Look(files', t.plan.changes[i].path) in {BeforeState(t.plan.changes[i]), AfterState(t.plan.changes[i])}
      ==> EitherWay(t, files')
  {
    hide StagedFiles, AfterState, BeforeState, Get, Look;
    forall k | 0 <= k < t.Size() && k != i
      ensures Look(files', t.plan.changes[k].path) == Look(files, t.plan.changes[k].path)
    {
      assert t.plan.changes[k].path != t.plan.changes[i].path;
      SameEntrySameLook(files, files', t.plan.changes[k].path);
    }
    assert t.plan.changes[i].path in ChangePaths(t.plan.changes) by {
      assert t.plan.changes[i] in t.plan.changes;
    }
  }

  lemma {:induction false} PublishHead(root: Root, m: Machine, c: Change, rest: seq<Change>)
    requires Publishable(c) && root.resolves(c.path) && Look(m.disk.files, c.path) == BeforeState(c)
    ensures m.left == 0 ==> PublishList(root, m, [c] + rest) == Halt(m, WriteRefused)
    ensures m.left > 0 ==>
      var m' := Machine(m.disk.(files := Published(m.disk.files, c)), m.left - 1);
      && PublishList(root, m, [c] + rest) == PublishList(root, m', rest)
      && Look(m'.disk.files, c.path) == AfterState(c) && MovedOnly(m.disk.files, m'.disk.files, c.path)
  {
    PublishMovesOnePath(m, c);
    assert ([c] + rest)[1..] == rest;
    if m.left > 0 {
      var m' := Machine(m.disk.(files := Published(m.disk.files, c)), m.left - 1);
      AfterHoldsMeansAfter(root, m'.disk.files, c);
      hide Publishable, RestorableChange, BeforeState, AfterState, AfterHolds, Published, Look, Publish;
    }
  }

  /** No path outside the plan moved. */
  ghost predicate OutsideKept(t: Txn, files: Files, files': Files) {
    forall q :: q !in ChangePaths(t.plan.changes) ==> Get(files', q) == Get(files, q)
  }

  /** Where a recovery takes a path. */
  function Side(c: Change, action: RecoveryAction): PathState {
    if action == Continue then AfterState(c) else BeforeState(c)
  }

  /** How many of the first n paths are not yet on the chosen side. */
  ghost function Remaining(t: Txn, files: Files, action: RecoveryAction, n: nat): (count: nat)
    requires n <= t.Size()
    ensures count <= n
  {
    if n == 0 then 0
    else
      var c := t.plan.changes[n - 1];
      Remaining(t, files, action, n - 1) + if Look(files, c.path) == Side(c, action) then 0 else 1
  }

  lemma {:induction false} MoveCounts(t: Txn, files: Files, files': Files, i: nat, action: RecoveryAction, n: nat)
    requires i < t.Size() && n <= t.Size()
    requires forall k :: 0 <= k < t.Size() && k != i ==> Look(files', t.plan.changes[k].path) == Look(files, t.plan.changes[k].path)
    requires Look(files, t.plan.changes[i].path) != Side(t.plan.changes[i], action) == Look(files', t.plan.changes[i].path)
    ensures Remaining(t, files', action, n) + (if i < n then 1 else 0) == Remaining(t, files, action, n)
  {
    hide Look, Side;
    if n > 0 {
      MoveCounts(t, files, files', i, action, n - 1);
    }
  }

  /** One write, one path moved to the chosen side, for good. */
  ghost predicate OneMoved(t: Txn, m: Machine, m': Machine, action: RecoveryAction) {
    && m.left > 0 && m' == Machine(m.disk.(files := m'.disk.files), m.left - 1)
    && OutsideKept(t, m.disk.files, m'.disk.files)
    && Remaining(t, m'.disk.files, action, t.Size()) + 1 == Remaining(t, m.disk.files, action, t.Size())
  }

  lemma MoveIsOne(t: Txn, m: Machine, m': Machine, i: nat, action: RecoveryAction)
    requires DistinctPaths(t.plan.changes) && i < t.Size()
    requires m.left > 0 && m' == Machine(m.disk.(files := m'.disk.files), m.left - 1)
    requires MovedOnly(m.disk.files, m'.disk.files, t.plan.changes[i].path)
    requires Look(m.disk.files, t.plan.changes[i].path) != Side(t.plan.changes[i], action)
    requires Look(m'.disk.files, t.plan.changes[i].path) == Side(t.plan.changes[i], action)
    ensures OneMoved(t, m, m', action)
  {
    hide Look, Side, DistinctPaths, Framed, EitherWay;
    MoveKeepsOthers(t, m.disk.files, m'.disk.files, i);
    assert t.plan.changes[i] in t.plan.changes;
    MoveCounts(t, m.disk.files, m'.disk.files, i, action, t.Size());
  }

  /** How publishing a recovery list can end: every write moved one path, and only the budget stops it. */
  ghost predicate ListOutcome(t: Txn, m: Machine, steps: nat, action: RecoveryAction, r: Run) {
    && r.m.disk == m.disk.(files := r.m.disk.files)
    && EitherWay(t, r.m.disk.files) && Framed(t, r.m.disk.files) && OutsideKept(t, m.disk.files, r.m.disk.files)
    && r.m.left <= m.left
    && Remaining(t, r.m.disk.files, action, t.Size()) + (m.left - r.m.left) == Remaining(t, m.disk.files, action, t.Size())
    && (r.Halt? ==> r.fault == WriteRefused && r.m.left == 0)
    && (m.left >= steps ==> r.Go? && r.m.left >= m.left - steps)
  }

  lemma NoStep(rest: seq<Change>)
    ensures [] + rest == rest
  {
  }

  /** Where a redo stands before action i; k bounds the published prefix when there is one. */
  ghost predicate Redoing(t: Txn, j: Journal, o: Observation, files: Files, i: nat, k: nat, ordered: bool) {
    && |j.actions| == t.Size() && i <= t.Size()
    && EitherWay(t, files) && Framed(t, files) && Seen(t, j, o, files, i, t.Size())
    && (forall x :: 0 <= x < i ==> Look(files, t.plan.changes[x].path) == AfterState(t.plan.changes[x]))
    && (ordered ==> i <= k && AtPrefix(t, files, k))
  }

  function Raised(k: nat, i: nat): nat {
    if i < k then k else i + 1
  }

  lemma RedoSkips(t: Txn, j: Journal, o: Observation, files: Files, i: nat, k: nat, ordered: bool)
    requires Redoing(t, j, o, files, i, k, ordered) && i < t.Size()
    requires Look(files, t.plan.changes[i].path) == AfterState(t.plan.changes[i])
    ensures Redoing(t, j, o, files, i + 1, Raised(k, i), ordered) && RedoStep(j, o, i) == []
  {
    hide Framed, Look, AfterState, BeforeState, MatchesBefore, MatchesAfter, LiveState;
  }

  lemma RedoMoves(t: Txn, j: Journal, o: Observation, files: Files, files': Files, i: nat, k: nat, ordered: bool)
    requires DistinctPaths(t.plan.changes) && Redoing(t, j, o, files, i, k, ordered) && i < t.Size()
    requires MovedOnly(files, files', t.plan.changes[i].path)
    requires Look(files', t.plan.changes[i].path) == AfterState(t.plan.changes[i])
    ensures Redoing(t, j, o, files', i + 1, Raised(k, i), ordered)
  {
    hide Framed, Look, AfterState, BeforeState, MatchesBefore, MatchesAfter, LiveState, MovedOnly;
    MoveKeepsOthers(t, files, files', i);
  }

  /** How redoing from action i may end: k' bounds the published prefix when there is one. */
  ghost predicate RedoEnds(t: Txn, m: Machine, j: Journal, o: Observation, i: nat, k: nat, k': nat, ordered: bool)
    requires i <= |j.actions|
  {
    var r := PublishList(t.root, m, RedoFrom(j, o, i));
    && ListOutcome(t, m, |j.actions| - i, Continue, r)
    && (r.Go? ==> AllAfterState(t, r.m.disk.files))
    && (ordered ==> k <= k' && AtPrefix(t, r.m.disk.files, k'))
  }

  lemma RedoIsDone(t: Txn, m: Machine, j: Journal, o: Observation, k: nat, ordered: bool)
    requires Redoing(t, j, o, m.disk.files, t.Size(), k, ordered)
    ensures RedoEnds(t, m, j, o, t.Size(), k, k, ordered)
  {
    hide Framed, Look, AfterState, BeforeState, MatchesBefore, MatchesAfter, LiveState;
    assert RedoFrom(j, o, t.Size()) == [];
  }

  lemma RedoSkipEnds(t: Txn, m: Machine, j: Journal, o: Observation, i: nat, k: nat, k': nat, ordered: bool)
    requires i < |j.actions| && RedoStep(j, o, i) == []
    requires RedoEnds(t, m, j, o, i + 1, Raised(k, i), k', ordered)
    ensures RedoEnds(t, m, j, o, i, k, k', ordered)
  {
    hide RedoStep, AtPrefix, Framed, EitherWay, Remaining, AllAfterState, PublishList;
    NoStep(RedoFrom(j, o, i + 1));
  }

  lemma RedoStopEnds(t: Txn, m: Machine, j: Journal, o: Observation, i: nat, k: nat, ordered: bool)
    requires Redoing(t, j, o, m.disk.files, i, k, ordered) && i < t.Size()
    requires PublishList(t.root, m, RedoFrom(j, o, i)) == Halt(m, WriteRefused) && m.left == 0
    ensures RedoEnds(t, m, j, o, i, k, k, ordered)
  {
    hide PublishList, AtPrefix, Framed, EitherWay, Remaining, AllAfterState, Seen, AfterState, BeforeState, Look;
  }

  lemma RedoMoveEnds(t: Txn, m: Machine, m': Machine, j: Journal, o: Observation, i: nat, k: nat, k': nat,
                     ordered: bool)
    requires i < |j.actions| && OneMoved(t, m, m', Continue)
    requires PublishList(t.root, m, RedoFrom(j, o, i)) == PublishList(t.root, m', RedoFrom(j, o, i + 1))
    requires RedoEnds(t, m', j, o, i + 1, Raised(k, i), k', ordered)
    ensures RedoEnds(t, m, j, o, i, k, k', ordered)
  {
    hide PublishList, AtPrefix, Framed, EitherWay, Remaining, AllAfterState, RedoFrom;
  }

  lemma RedoHead(t: Txn, j: Journal, o: Observation, files: Files, i: nat)
    requires Sound(t) && |j.actions| == t.Size() && i < t.Size() && EitherWay(t, files)
    requires Seen(t, j, o, files, i, t.Size())
    ensures DistinctPaths(t.plan.changes)
    ensures var c := t.plan.changes[i];
      && Publishable(c) && t.root.resolves(c.path)
      && (Look(files, c.path) != AfterState(c) ==>
            Look(files, c.path) == BeforeState(c) && RedoFrom(j, o, i) == [c] + RedoFrom(j, o, i + 1))
  {
    hide Sound, Publishable, Look, BeforeState, AfterState, MatchesAfter, MatchesBefore, LiveState, DistinctPaths;
    SoundTarget(t, i);
    assert j.actions[i].change == t.plan.changes[i];
  }

  lemma SoundTarget(t: Txn, i: nat)
    requires Sound(t) && i < t.Size()
    ensures DistinctPaths(t.plan.changes) && Publishable(t.plan.changes[i]) && t.root.resolves(t.plan.changes[i].path)
  {
    SoundFacts(t);
    assert SoundChange(t, t.plan.changes[i]);
  }

  lemma RedoingFacts(t: Txn, j: Journal, o: Observation, files: Files, i: nat, k: nat, ordered: bool)
    requires Redoing(t, j, o, files, i, k, ordered)
    ensures |j.actions| == t.Size() && i <= t.Size()
    ensures EitherWay(t, files) && Seen(t, j, o, files, i, t.Size())
  {
  }

  /** Redoing from action i: the published paths only grow, in order, and at the end all are after. */
  lemma {:induction false} RedoMovesForward(t: Txn, m: Machine, j: Journal, o: Observation, i: nat, k: nat,
                                            ordered: bool) returns (k': nat)
    requires Sound(t) && Redoing(t, j, o, m.disk.files, i, k, ordered)
    ensures RedoEnds(t, m, j, o, i, k, k', ordered)
    decreases t.Size() - i
  {
    hide Sound, Redoing, RedoEnds, Look, AfterState, BeforeState, Publishable, Published, PublishList, RedoFrom, RedoStep,
      DistinctPaths, EitherWay, Framed, AtPrefix, Seen, OneMoved, MovedOnly, Raised;
    RedoingFacts(t, j, o, m.disk.files, i, k, ordered);
    if i == t.Size() {
      k' := k;
      RedoIsDone(t, m, j, o, k, ordered);
    } else {
      var c := t.plan.changes[i];
      RedoHead(t, j, o, m.disk.files, i);
      if Look(m.disk.files, c.path) == AfterState(c) {
        RedoSkips(t, j, o, m.disk.files, i, k, ordered);
        k' := RedoMovesForward(t, m, j, o, i + 1, Raised(k, i), ordered);
        RedoSkipEnds(t, m, j, o, i, k, k', ordered);
      } else {
        PublishHead(t.root, m, c, RedoFrom(j, o, i + 1));
        if m.left > 0 {
          var m' := Machine(m.disk.(files := Published(m.disk.files, c)), m.left - 1);
          RedoMoves(t, j, o, m.disk.files, m'.disk.files, i, k, ordered);
          MoveIsOne(t, m, m', i, Continue);
          k' := RedoMovesForward(t, m', j, o, i + 1, Raised(k, i), ordered);
          RedoMoveEnds(t, m, m', j, o, i, k, k', ordered);
        } else {
          k' := k;
          RedoStopEnds(t, m, j, o, i, k, ordered);
        }
      }
    }
  }

  // ----- Undoing -----

  /** Where an undo stands with actions i-1 down to 0 to go: every path from i on is back. */
  ghost predicate Undoing(t: Txn, j: Journal, o: Observation, files: Files, i: nat, k: nat, ordered: bool) {
    && |j.actions| == t.Size() && i <= t.Size()
    && EitherWay(t, files) && Framed(t, files) && Seen(t, j, o, files, 0, i)
    && (forall x :: i <= x < t.Size() ==> Look(files, t.plan.changes[x].path) == BeforeState(t.plan.changes[x]))
    && (forall x :: 0 <= x < i ==> Undoable(t, o, files, x))
    && (ordered ==> k <= i && AtPrefix(t, files, k))
  }

  /** The backup holds the before content; no directory has to be taken back. */
  ghost predicate Undoable(t: Txn, o: Observation, files: Files, x: nat)
    requires x < t.Size()
  {
    var c := t.plan.changes[x];
    && (NeedsBackup(c) ==> HashBytes(BackupContent(o, x)) == c.before)
    && (c.kind == CreateDir ==> Look(files, c.path) == BeforeState(c))
  }

  function Lowered(k: nat, i: nat): nat
    requires i > 0
  {
    if k < i then k else i - 1
  }

  /** The undo of a published action turns its after state back into its before state. */
  lemma UndoIsInverse(a: Action, backup: Bytes, sequence: int)
    requires Publishable(a.change) && a.change.kind != CreateDir
    requires NeedsBackup(a.change) ==> HashBytes(backup) == a.change.before
    ensures var u := WithSequence(Undo(a, backup), sequence);
      && Publishable(u) && u.path == a.change.path
      && BeforeState(u) == AfterState(a.change) && AfterState(u) == BeforeState(a.change)
  {
    match a.change.kind {
      case CreateFile =>
      case UpdateFile =>
      case DeleteFile =>
    }
  }

  lemma UndoSkips(t: Txn, j: Journal, o: Observation, files: Files, i: nat, k: nat, ordered: bool)
    requires Undoing(t, j, o, files, i, k, ordered) && 0 < i
    requires Look(files, t.plan.changes[i - 1].path) == BeforeState(t.plan.changes[i - 1])
    ensures Undoing(t, j, o, files, i - 1, Lowered(k, i), ordered) && UndoStep(j, o, i - 1) == []
  {
    hide Framed, Look, AfterState, BeforeState, MatchesBefore, MatchesAfter, LiveState, Undoable;
  }

  lemma UndoMoves(t: Txn, j: Journal, o: Observation, files: Files, files': Files, i: nat, k: nat, ordered: bool)
    requires DistinctPaths(t.plan.changes) && Undoing(t, j, o, files, i, k, ordered) && 0 < i
    requires MovedOnly(files, files', t.plan.changes[i - 1].path)
    requires Look(files', t.plan.changes[i - 1].path) == BeforeState(t.plan.changes[i - 1])
    ensures Undoing(t, j, o, files', i - 1, Lowered(k, i), ordered)
  {
    hide Framed, Look, AfterState, BeforeState, MatchesBefore, MatchesAfter, LiveState, MovedOnly, BackupContent,
      NeedsBackup;
    MoveKeepsOthers(t, files, files', i - 1);
    forall x | 0 <= x < i - 1
      ensures Undoable(t, o, files', x)
    {
      assert Undoable(t, o, files, x);
    }
  }

  /** How undoing from action i - 1 down may end. */
  ghost predicate UndoEnds(t: Txn, m: Machine, j: Journal, o: Observation, i: nat, k: nat, k': nat, ordered: bool)
    requires i <= |j.actions|
  {
    var r := PublishList(t.root, m, UndoBelow(j, o, i));
    && ListOutcome(t, m, i, Rollback, r)
    && (r.Go? ==> AllBeforeState(t, r.m.disk.files))
    && (ordered ==> k' <= k && AtPrefix(t, r.m.disk.files, k'))
  }

  lemma UndoIsDone(t: Txn, m: Machine, j: Journal, o: Observation, k: nat, ordered: bool)
    requires Undoing(t, j, o, m.disk.files, 0, k, ordered)
    ensures UndoEnds(t, m, j, o, 0, k, k, ordered)
  {
    hide Framed, Look, AfterState, BeforeState, MatchesBefore, MatchesAfter, LiveState;
    assert UndoBelow(j, o, 0) == [];
  }

  lemma UndoSkipEnds(t: Txn, m: Machine, j: Journal, o: Observation, i: nat, k: nat, k': nat, ordered: bool)
    requires 0 < i <= |j.actions| && UndoStep(j, o, i - 1) == []
    requires UndoEnds(t, m, j, o, i - 1, Lowered(k, i), k', ordered)
    ensures UndoEnds(t, m, j, o, i, k, k', ordered)
  {
    hide UndoStep, AtPrefix, Framed, EitherWay, Remaining, AllBeforeState, PublishList;
    NoStep(UndoBelow(j, o, i - 1));
  }

  lemma UndoStopEnds(t: Txn, m: Machine, j: Journal, o: Observation, i: nat, k: nat, ordered: bool)
    requires Undoing(t, j, o, m.disk.files, i, k, ordered) && 0 < i
    requires PublishList(t.root, m, UndoBelow(j, o, i)) == Halt(m, WriteRefused) && m.left == 0
    ensures UndoEnds(t, m, j, o, i, k, k, ordered)
  {
    hide PublishList, AtPrefix, Framed, EitherWay, Remaining, AllBeforeState, Seen, AfterState, BeforeState, Look,
      Undoable;
  }

  lemma UndoMoveEnds(t: Txn, m: Machine, m': Machine, j: Journal, o: Observation, i: nat, k: nat, k': nat,
                     ordered: bool)
    requires 0 < i <= |j.actions| && OneMoved(t, m, m', Rollback)
    requires PublishList(t.root, m, UndoBelow(j, o, i)) == PublishList(t.root, m', UndoBelow(j, o, i - 1))
    requires UndoEnds(t, m', j, o, i - 1, Lowered(k, i), k', ordered)
    ensures UndoEnds(t, m, j, o, i, k, k', ordered)
  {
    hide PublishList, AtPrefix, Framed, EitherWay, Remaining, AllBeforeState, UndoBelow;
  }

  lemma UndoHead(t: Txn, j: Journal, o: Observation, files: Files, i: nat)
    requires Sound(t) && |j.actions| == t.Size() && 0 < i <= t.Size() && EitherWay(t, files)
    requires Seen(t, j, o, files, 0, i)
    requires Undoable(t, o, files, i - 1)
    ensures DistinctPaths(t.plan.changes)
    ensures var c := t.plan.changes[i - 1];
      var u := WithSequence(Undo(j.actions[i - 1], BackupContent(o, i - 1)), (|j.actions| - (i - 1)) * 10);
      Look(files, c.path) != BeforeState(c) ==>
        && Publishable(u) && u.path == c.path && t.root.resolves(u.path)
        && Look(files, u.path) == BeforeState(u) && AfterState(u) == BeforeState(c)
        && UndoBelow(j, o, i) == [u] + UndoBelow(j, o, i - 1)
  {
    hide Sound, EitherWay, Seen, Undoable, Publishable, Look, BeforeState, AfterState, MatchesAfter, MatchesBefore,
      LiveState, Undo, BackupContent, NeedsBackup, DistinctPaths;
    UndoSides(t, j, o, files, i);
    var c := t.plan.changes[i - 1];
    if Look(files, c.path) != BeforeState(c) {
      UndoIsInverse(j.actions[i - 1], BackupContent(o, i - 1), (|j.actions| - (i - 1)) * 10);
    }
  }

  lemma UndoSides(t: Txn, j: Journal, o: Observation, files: Files, i: nat)
    requires Sound(t) && |j.actions| == t.Size() && 0 < i <= t.Size() && EitherWay(t, files)
    requires Seen(t, j, o, files, 0, i)
    requires Undoable(t, o, files, i - 1)
    ensures DistinctPaths(t.plan.changes)
    ensures var c := t.plan.changes[i - 1];
      && j.actions[i - 1].change == c && Publishable(c) && t.root.resolves(c.path)
      && (NeedsBackup(c) ==> HashBytes(BackupContent(o, i - 1)) == c.before)
      && (MatchesBefore(c, LiveState(o, c.path)) <==> Look(files, c.path) == BeforeState(c))
      && (Look(files, c.path) != BeforeState(c) ==> c.kind != CreateDir && Look(files, c.path) == AfterState(c))
  {
    hide Sound, Publishable, Look, BeforeState, AfterState, MatchesAfter, MatchesBefore, LiveState, BackupContent,
      NeedsBackup, DistinctPaths;
    SoundTarget(t, i - 1);
    assert j.actions[i - 1].change == t.plan.changes[i - 1];
  }

  lemma UndoingFacts(t: Txn, j: Journal, o: Observation, files: Files, i: nat, k: nat, ordered: bool)
    requires Undoing(t, j, o, files, i, k, ordered)
    ensures |j.actions| == t.Size() && i <= t.Size()
    ensures EitherWay(t, files) && Seen(t, j, o, files, 0, i)
    ensures i > 0 ==> Undoable(t, o, files, i - 1)
  {
  }

  /** Undoing from action i - 1 down: the published paths only shrink, from the end, and at the end all are before. */
  lemma {:induction false} UndoMovesBack(t: Txn, m: Machine, j: Journal, o: Observation, i: nat, k: nat,
                                         ordered: bool) returns (k': nat)
    requires Sound(t) && Undoing(t, j, o, m.disk.files, i, k, ordered)
    ensures UndoEnds(t, m, j, o, i, k, k', ordered)
    decreases i
  {
    hide Sound, Undoing, UndoEnds, Look, AfterState, BeforeState, Publishable, Published, PublishList, UndoBelow,
      DistinctPaths, EitherWay, Framed, AtPrefix, Seen, Undoable, Undo, BackupContent, OneMoved, MovedOnly;
    UndoingFacts(t, j, o, m.disk.files, i, k, ordered);
    if i == 0 {
      k' := k;
      UndoIsDone(t, m, j, o, k, ordered);
    } else {
      var c := t.plan.changes[i - 1];
      UndoHead(t, j, o, m.disk.files, i);
      if Look(m.disk.files, c.path) == BeforeState(c) {
        UndoSkips(t, j, o, m.disk.files, i, k, ordered);
        k' := UndoMovesBack(t, m, j, o, i - 1, Lowered(k, i), ordered);
        UndoSkipEnds(t, m, j, o, i, k, k', ordered);
      } else {
        var u := WithSequence(Undo(j.actions[i - 1], BackupContent(o, i - 1)), (|j.actions| - (i - 1)) * 10);
        PublishHead(t.root, m, u, UndoBelow(j, o, i - 1));
        if m.left > 0 {
          var m' := Machine(m.disk.(files := Published(m.disk.files, u)), m.left - 1);
          UndoMoves(t, j, o, m.disk.files, m'.disk.files, i, k, ordered);
          MoveIsOne(t, m, m', i - 1, Rollback);
          k' := UndoMovesBack(t, m', j, o, i - 1, Lowered(k, i), ordered);
          UndoMoveEnds(t, m, m', j, o, i, k, k', ordered);
        } else {
          k' := k;
          UndoStopEnds(t, m, j, o, i, k, ordered);
        }
      }
    }
  }
}
