/** internal/plan: canonical order, plan identity, and restoring a persisted plan. */
module Planning {
  import opened Wrappers
  import opened Records
  import opened Sorting

  predicate BySequence(a: Change, b: Change) {
    a.sequence < b.sequence
  }

  predicate ByPath(a: Change, b: Change) {
    LexLess(a.path, b.path)
  }

  predicate ByInputPath(a: Input, b: Input) {
    LexLess(a.path, b.path)
  }

  predicate ExplicitSequence(changes: seq<Change>) {
    exists c :: c in changes && c.sequence != 0
  }

  function Canonically(changes: seq<Change>): (r: seq<Change>)
    ensures multiset(r) == multiset(changes)
  {
    if ExplicitSequence(changes) then Sort(changes, BySequence) else Sort(changes, ByPath)
  }

  /** The change as the canonical encoding sees it: its content is left out. */
  function Hashed(c: Change): Change {
    c.(content := [])
  }

  function HashedAll(changes: seq<Change>): seq<Change> {
    seq(|changes|, i requires 0 <= i < |changes| => Hashed(changes[i]))
  }

  function NewPlan(operation: string, workspace: string, changes: seq<Change>, inputs: seq<Input>,
                   metadata: Metadata): Plan {
    var ordered := Canonically(changes);
    var orderedInputs := Sort(inputs, ByInputPath);
    Plan(IDOf(operation, workspace, HashedAll(ordered), orderedInputs, metadata),
         operation, workspace, ordered, orderedInputs, metadata)
  }

  /** A Plan's fields are private, so every plan is one the constructor made. */
  predicate Canonical(p: Plan) {
    p == NewPlan(p.operation, p.workspace, p.changes, p.inputs, p.metadata)
  }

  function Persisted(p: Plan): PersistedPlan {
    PersistedPlan(p.id, p.operation, p.workspace, p.changes, p.inputs, p.metadata)
  }

  /** RestoreChange's field checks. */
  predicate RestorableChange(c: Change) {
    && c.path != ""
    && c.size >= 0
    && match c.kind
       case CreateDir =>
         c.before == MissingDigest && c.after == DirectoryDigest && c.size == 0 && c.content == []
       case CreateFile => c.size == |c.content| && c.after == HashBytes(c.content)
       case UpdateFile => c.size == |c.content| && c.after == HashBytes(c.content)
       case DeleteFile => c.after == MissingDigest && c.size == 0 && c.content == []
       case DeleteDir =>
         c.before == DirectoryDigest && c.after == MissingDigest && c.size == 0 && c.content == []
       case UnknownKind(_) => false
  }

  datatype PlanFault = IncompleteIdentity | InvalidChange(index: nat) | IDMismatch

  predicate AllRestorable(changes: seq<Change>) {
    forall c :: c in changes ==> RestorableChange(c)
  }

  /** What Restore yields when it accepts. */
  predicate Restorable(p: PersistedPlan) {
    && p.id != NoPlanID && p.operation != ""
    && AllRestorable(p.changes)
    && NewPlan(p.operation, p.workspace, p.changes, p.inputs, p.metadata).id == p.id
  }

  method Restore(p: PersistedPlan) returns (r: Result<Plan, PlanFault>)
    ensures r.Ok? <==> Restorable(p)
    ensures r.Ok? ==> r.value == NewPlan(p.operation, p.workspace, p.changes, p.inputs, p.metadata)
    ensures r.Err? && r.error.InvalidChange? ==>
      r.error.index < |p.changes| && !RestorableChange(p.changes[r.error.index])
  {
    if p.id == NoPlanID || p.operation == "" {
      return Err(IncompleteIdentity);
    }
    var changes: seq<Change> := [];
    for index := 0 to |p.changes|
      invariant changes == p.changes[..index]
      invariant AllRestorable(p.changes[..index])
    {
      if !RestorableChange(p.changes[index]) {
        assert p.changes[index] in p.changes;
        return Err(InvalidChange(index));
      }
      changes := changes + [p.changes[index]];
    }
    assert changes == p.changes;
    var restored := NewPlan(p.operation, p.workspace, changes, p.inputs, p.metadata);
    if restored.id != p.id {
      return Err(IDMismatch);
    }
    return Ok(restored);
  }

  lemma PathOrdering()
    ensures Ordering(ByPath) && Ordering(ByInputPath) && Ordering(BySequence)
  {
    forall a: Change, b: Change | ByPath(a, b)
      ensures !ByPath(b, a)
    {
      LexAsymmetric(a.path, b.path);
    }
    forall a: Change, b: Change, c: Change | !ByPath(b, a) && !ByPath(c, b)
      ensures !ByPath(c, a)
    {
      LexTransitive(a.path, b.path, c.path);
    }
    forall a: Input, b: Input | ByInputPath(a, b)
      ensures !ByInputPath(b, a)
    {
      LexAsymmetric(a.path, b.path);
    }
    forall a: Input, b: Input, c: Input | !ByInputPath(b, a) && !ByInputPath(c, b)
      ensures !ByInputPath(c, a)
    {
      LexTransitive(a.path, b.path, c.path);
    }
  }

  lemma SameMultisetSameElements<T>(s: seq<T>, t: seq<T>)
    requires multiset(s) == multiset(t)
    ensures forall x :: x in s <==> x in t
  {
    forall x: T
      ensures x in s <==> x in t
    {
      assert x in s <==> x in multiset(s);
    }
  }

  /** Canonical order is in force: by sequence when any is set, by path otherwise. */
  ghost predicate InOrder(changes: seq<Change>) {
    if ExplicitSequence(changes) then Sorted(changes, BySequence) else Sorted(changes, ByPath)
  }

  lemma CanonicallyOrders(changes: seq<Change>)
    ensures InOrder(Canonically(changes))
  {
    PathOrdering();
    SameMultisetSameElements(changes, Canonically(changes));
    if ExplicitSequence(changes) {
      SortSorts(changes, BySequence);
    } else {
      SortSorts(changes, ByPath);
    }
  }

  lemma CanonicallyFixesOrdered(changes: seq<Change>)
    requires InOrder(changes)
    ensures Canonically(changes) == changes
  {
    if ExplicitSequence(changes) {
      SortFixesSorted(changes, BySequence);
    } else {
      SortFixesSorted(changes, ByPath);
    }
  }

  /** Every plan the constructor makes is its own canonical form. */
  lemma CanonicalIsIdempotent(operation: string, workspace: string, changes: seq<Change>, inputs: seq<Input>,
                              metadata: Metadata)
    ensures Canonical(NewPlan(operation, workspace, changes, inputs, metadata))
  {
    CanonicallyOrders(changes);
    CanonicallyFixesOrdered(Canonically(changes));
    PathOrdering();
    SortSorts(inputs, ByInputPath);
    SortFixesSorted(Sort(inputs, ByInputPath), ByInputPath);
  }

  /** Whichever key the order uses, equal keys mean equal changes. */
  ghost predicate DistinctKeys(changes: seq<Change>) {
    forall a, b :: a in changes && b in changes ==>
      (if ExplicitSequence(changes) then a.sequence == b.sequence else a.path == b.path) ==> a == b
  }

  ghost predicate DistinctInputs(inputs: seq<Input>) {
    forall a, b :: a in inputs && b in inputs && a.path == b.path ==> a == b
  }

  /** The plan, and so its ID, does not depend on the order its parts are given in. */
  lemma PlanIgnoresGivenOrder(
    operation: string, workspace: string, metadata: Metadata,
    changes: seq<Change>, inputs: seq<Input>, changes': seq<Change>, inputs': seq<Input>)
    requires DistinctKeys(changes) && DistinctInputs(inputs)
    requires multiset(changes) == multiset(changes') && multiset(inputs) == multiset(inputs')
    ensures NewPlan(operation, workspace, changes, inputs, metadata)
         == NewPlan(operation, workspace, changes', inputs', metadata)
  {
    var c, c' := Canonically(changes), Canonically(changes');
    PathOrdering();
    CanonicallyOrders(changes);
    CanonicallyOrders(changes');
    SameMultisetSameElements(changes, changes');
    SameMultisetSameElements(changes, c);
    SameMultisetSameElements(changes, c');
    if ExplicitSequence(changes) {
      SortedUnique(c, c', BySequence);
    } else {
      forall a: Change, b: Change | a in c && b in c && !ByPath(a, b) && !ByPath(b, a)
        ensures a == b
      {
        LexTotal(a.path, b.path);
      }
      SortedUnique(c, c', ByPath);
    }
    var i, i' := Sort(inputs, ByInputPath), Sort(inputs', ByInputPath);
    SortSorts(inputs, ByInputPath);
    SortSorts(inputs', ByInputPath);
    SameMultisetSameElements(inputs, i);
    forall a: Input, b: Input | a in i && b in i && !ByInputPath(a, b) && !ByInputPath(b, a)
      ensures a == b
    {
      LexTotal(a.path, b.path);
    }
    SortedUnique(i, i', ByInputPath);
  }

  /** Restoring what was persisted gives the plan back. */
  lemma RestoreUndoesPersisted(p: Plan)
    requires Canonical(p) && p.operation != "" && AllRestorable(p.changes)
    ensures Restorable(Persisted(p))
    ensures NewPlan(p.operation, p.workspace, Persisted(p).changes, p.inputs, p.metadata) == p
  {
  }

  /** The hashed fields pin the content down, because the after hash does. */
  lemma HashedFieldsDetermineChange(a: Change, b: Change)
    requires RestorableChange(a) && RestorableChange(b) && Hashed(a) == Hashed(b)
    ensures a == b
  {
    assert a.kind == b.kind && a.path == b.path && a.after == b.after;
    assert a.content == b.content;
    assert a == Hashed(a).(content := a.content);
    assert b == Hashed(b).(content := b.content);
  }

  lemma HashedFieldsDetermineChanges(a: seq<Change>, b: seq<Change>)
    requires AllRestorable(a) && AllRestorable(b) && HashedAll(a) == HashedAll(b)
    ensures a == b
  {
    assert |HashedAll(a)| == |a| && |HashedAll(b)| == |b|;
    forall i | 0 <= i < |a|
      ensures a[i] == b[i]
    {
      assert HashedAll(a)[i] == HashedAll(b)[i];
      assert a[i] in a && b[i] in b;
      HashedFieldsDetermineChange(a[i], b[i]);
    }
  }

  /** A record that claims p's ID and restores at all restores to p: contents included. */
  lemma TamperedPlanIsRejected(p: Plan, forged: PersistedPlan)
    requires Canonical(p) && AllRestorable(p.changes)
    requires Restorable(forged) && forged.id == p.id
    ensures NewPlan(forged.operation, forged.workspace, forged.changes, forged.inputs, forged.metadata) == p
    ensures multiset(forged.changes) == multiset(p.changes)
  {
    var ordered := Canonically(forged.changes);
    SameMultisetSameElements(forged.changes, ordered);
    assert p.id.hashedChanges == HashedAll(Canonically(p.changes)) && Canonically(p.changes) == p.changes;
    assert forged.id.hashedChanges == HashedAll(ordered);
    HashedFieldsDetermineChanges(ordered, p.changes);
  }
}
