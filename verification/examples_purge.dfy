/** A workspace whose purge, cut off behind its rename, leaves a tombstone that no cleanup ever removes. */
module PurgeExamples {
  import opened Wrappers
  import opened Records
  import opened Engine
  import opened OwnershipCodec
  import opened Lifecycle
  import opened Archives
  import opened Purges
  import opened PurgeProofs
  import opened PurgeCompletion
  import opened Examples

  function NameOf(i: nat): (name: string)
    ensures |name| == i && forall c :: c in name ==> c == 'x'
  {
    seq(i, _ => 'x')
  }

  ghost function Names(n: nat): (names: set<string>)
    ensures |names| == n && forall q :: q in names ==> 0 < |q| <= n && q == NameOf(|q|)
  {
    if n == 0 then {} else Names(n - 1) + {NameOf(n)}
  }

  /** Empty files under .uawp, with names of growing length. */
  ghost function Crowd(n: nat): (files: Files)
    ensures forall q :: q in Names(n) ==> INSIDE + q in files
    ensures forall p :: p in files ==> INSIDE <= p && |p| > |INSIDE| && p[|p| - 1] == 'x' && p[|INSIDE|] == 'x'
  {
    if n == 0 then map[]
    else
      assert NameOf(n)[0] in NameOf(n) && NameOf(n)[n - 1] in NameOf(n);
      Crowd(n - 1)[INSIDE + NameOf(n) := File([], PRIVATE_FILE_MODE)]
  }

  ghost function CrowdedDisk(n: nat): Disk {
    Disk(InitialFiles() + Crowd(n), false, None, map[])
  }

  ghost function OwnerRead(): seq<Input> {
    [Read(OWNER_PATH, if Encode(OWNER).Some? then Encode(OWNER).value else [])]
  }

  lemma CrowdIsElsewhere(n: nat)
    ensures NAMESPACE !in Crowd(n) && OWNER_PATH !in Crowd(n) && PURGE_MARKER !in Crowd(n) && RECOVERY_ROOT !in Crowd(n)
  {
    assert |NAMESPACE| == 5 && OWNER_PATH[6] == 'A' && PURGE_MARKER[6] == 'P' && RECOVERY_ROOT[6] == 'r';
  }

  /** No two different names take one place of an order. */
  lemma {:induction false} CoveringIsLong(order: seq<string>, names: set<string>)
    requires forall q :: q in names ==> q in order
    ensures |names| <= |order|
  {
    if order != [] {
      assert forall q :: q in names - {order[0]} ==> q in order[1..];
      CoveringIsLong(order[1..], names - {order[0]});
    }
  }

  lemma NameIsListed(tools: Tools, n: nat, q: string)
    requires q in Names(n) && !tools.isRecord(NameOf(|q|))
    ensures q in NamespaceSnapshot(tools, CrowdedDisk(n))
  {
    hide InitialFiles, InsideFiles, NameOf, Crowd;
    CrowdIsElsewhere(n);
    assert (INSIDE + q)[|INSIDE|..] == q && INSIDE + q in Crowd(n);
    InsideEntry(tools, CrowdedDisk(n).files, q);
  }

  lemma CrowdIsListed(tools: Tools, n: nat)
    requires GoodTools(tools) && forall i: nat :: !tools.isRecord(NameOf(i))
    ensures |ListingOf(tools, NamespaceSnapshot(tools, CrowdedDisk(n)))| >= n
  {
    hide CrowdedDisk, NamespaceSnapshot, Crowd, NameOf;
    var entries := NamespaceSnapshot(tools, CrowdedDisk(n));
    assert Enumerates(tools.order(entries), entries);
    hide GoodTools;
    forall q | q in Names(n)
      ensures q in tools.order(entries)
    {
      NameIsListed(tools, n, q);
    }
    CoveringIsLong(tools.order(entries), Names(n));
  }

  lemma CrowdedIsReleased(n: nat)
    ensures ReleasedInput(CrowdedDisk(n).files, OwnerRead())
    ensures NAMESPACE in CrowdedDisk(n).files && CrowdedDisk(n).files[NAMESPACE].Directory? && PURGE_MARKER !in CrowdedDisk(n).files
  {
    hide Encode, Decode, Crowd;
    InitialOwner();
    CrowdIsElsewhere(n);
    assert |PURGE_MARKER| != |NAMESPACE| && PURGE_MARKER[6] == 'P' && OWNER_PATH[6] == 'A' && RECOVERY_ROOT[6] == 'r';
  }

  lemma CrowdedIsReady(tools: Tools, n: nat, path: string)
    requires GoodTools(tools) && Exportable(tools, NamespaceSnapshot(tools, CrowdedDisk(n)))
    ensures ReadyToPurge(tools, State(CrowdedDisk(n), None, map[], 5), path, OwnerRead())
  {
    CrowdedIsReleased(n);
    hide GoodTools, Exportable, NamespaceSnapshot, ReleasedInput;
  }

  lemma CrowdedIsTooLong(tools: Tools, n: nat)
    requires GoodTools(tools) && n > MAX_MANIFEST_BYTES && forall i: nat :: !tools.isRecord(NameOf(i))
    ensures |tools.format.manifest(ListingOf(tools, NamespaceSnapshot(tools, CrowdedDisk(n))))| > MAX_MANIFEST_BYTES + 1
  {
    CrowdIsListed(tools, n);
    assert GoodFormat(tools.format);
    hide GoodTools, ListingOf, NamespaceSnapshot, CrowdedDisk, NameOf;
  }

  /** Its purge gets as far as the rename, and from there on no cleanup of any plan changes anything. */
  lemma StuckTombstoneExists(tools: Tools, n: nat, planID: PlanID, path: string)
    requires GoodTools(tools) && n > MAX_MANIFEST_BYTES && (forall i: nat :: !tools.isRecord(NameOf(i)))
    requires Exportable(tools, NamespaceSnapshot(tools, CrowdedDisk(n)))
    ensures var r := Purged(tools, State(CrowdedDisk(n), None, map[], 5), planID, path, OwnerRead(), CutOff({}, false));
      && PastRename(r) && r.Stopped? && r.s.tombstone.Some?
      && forall plan, approved, removal :: CleanedUp(tools, r.s, plan, approved, removal).s == r.s
  {
    hide GoodTools, Exportable, NamespaceSnapshot, CrowdedDisk, CleanedUp, ListingOf, Legible, Purged, ReadyToPurge, NameOf, OwnerRead,
      PastRename, CompleteMarker;
    var s := State(CrowdedDisk(n), None, map[], 5);
    CrowdedIsReady(tools, n, path);
    CrowdedIsTooLong(tools, n);
    PurgeGoesThroughExactly(tools, s, planID, path, OwnerRead(), CutOff({}, false));
    CutPurgeIsCleanable(tools, s, planID, path, OwnerRead(), "c", "r");
    CutIsStopped(tools, s, planID, path, OwnerRead());
  }
}
