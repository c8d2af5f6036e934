/**
 * What `StorePod`, `StoreVmi` and `StoreVmiMigration` do to their tables:
 * each is an upsert by uuid whose ON DUPLICATE KEY UPDATE clause names the
 * columns a re-store overwrites, and that set differs per table. Also the
 * migration row the auto-link in `StoreVmi` builds from a VMI's migration
 * state.
 */
module Store {
  import opened Wrappers
  import opened Rows
  import opened Table
  import opened Lookups

  /** `ON DUPLICATE KEY UPDATE keyid=VALUES(keyid)`. */
  function MergePod(stored: Pod, incoming: Pod): Pod
  {
    stored.(key := incoming.key)
  }

  /** `ON DUPLICATE KEY UPDATE uuid=VALUES(uuid)`. */
  function MergeVmi(stored: VmiRow, incoming: VmiRow): VmiRow
  {
    stored.(uuid := incoming.uuid)
  }

  /** The update clause of the migrations insert: seven columns besides uuid. */
  function MergeMigration(stored: Migration, incoming: Migration): Migration
  {
    stored.(uuid := incoming.uuid, targetPod := incoming.targetPod,
            creationTime := incoming.creationTime, endTimestamp := incoming.endTimestamp,
            sourceNode := incoming.sourceNode, targetNode := incoming.targetNode,
            completed := incoming.completed, failed := incoming.failed)
  }

  /**
   * A pod re-store keeps the stored uuid, changes the row exactly when keyid
   * differs, and the later of two re-stores decides the row.
   */
  lemma MergePodRules(stored: Pod, a: Pod, b: Pod)
    ensures MergePod(stored, a).uuid == stored.uuid
    ensures MergePod(stored, a) == stored <==> stored.key == a.key
    ensures MergePod(MergePod(stored, a), b) == MergePod(stored, b)
    ensures MergePod(a, a) == a
  {
  }

  /** A VMI re-store with the stored uuid leaves the stored row exactly as it was. */
  lemma MergeVmiRules(stored: VmiRow, a: VmiRow)
    ensures MergeVmi(stored, a).uuid == a.uuid
    ensures stored.uuid == a.uuid ==> MergeVmi(stored, a) == stored
  {
  }

  /**
   * A migration re-store changes the stored row exactly when one of the eight
   * columns of the update clause differs; the later of two re-stores decides
   * the row, and re-storing a row onto itself changes nothing.
   */
  lemma MergeMigrationRules(stored: Migration, a: Migration, b: Migration)
    ensures MergeMigration(stored, a).uuid == a.uuid
    ensures MergeMigration(stored, a) == stored <==>
      && stored.uuid == a.uuid && stored.targetPod == a.targetPod
      && stored.creationTime == a.creationTime && stored.endTimestamp == a.endTimestamp
      && stored.sourceNode == a.sourceNode && stored.targetNode == a.targetNode
      && stored.completed == a.completed && stored.failed == a.failed
    ensures MergeMigration(MergeMigration(stored, a), b) == MergeMigration(stored, b)
    ensures MergeMigration(a, a) == a
  {
  }

  function StorePodRows(pods: seq<Pod>, p: Pod): seq<Pod>
  {
    Upsert(pods, PodUuid, p, MergePod)
  }

  /** The `vmis` table keeps no status, so the stored row drops it. */
  function VmiRowOf(v: VirtualMachineInstance): VmiRow
  {
    VmiRow(v.name, v.namespace, v.uuid, v.reason, v.phase, v.nodeName, v.creationTime, v.content)
  }

  function StoreVmiRows(vmis: seq<VmiRow>, v: VirtualMachineInstance): seq<VmiRow>
  {
    Upsert(vmis, VmiUuid, VmiRowOf(v), MergeVmi)
  }

  function StoreMigrationRows(migrations: seq<Migration>, m: Migration): seq<Migration>
  {
    Upsert(migrations, MigrationUuid, m, MergeMigration)
  }

  /**
   * Storing a pod inserts it whole when its uuid is new; when the uuid is
   * stored already, only `keyid` changes. No other uuid's row changes.
   */
  lemma StorePodLookup(pods: seq<Pod>, p: Pod, uuid: string)
    requires UniqueKeys(pods, PodUuid)
    ensures UniqueKeys(StorePodRows(pods, p), PodUuid)
    ensures Lookup(StorePodRows(pods, p), PodUuid, uuid) ==
      if uuid != p.uuid then Lookup(pods, PodUuid, uuid)
      else match Lookup(pods, PodUuid, uuid)
        case Some(e) => Some(e.(key := p.key))
        case None => Some(p)
  {
    UpsertLookup(pods, PodUuid, p, MergePod, uuid);
  }

  /**
   * Storing a VMI inserts its row when the uuid is new; when the uuid is
   * stored already, the stored row stays exactly as it was.
   */
  lemma StoreVmiLookup(vmis: seq<VmiRow>, v: VirtualMachineInstance, uuid: string)
    requires UniqueKeys(vmis, VmiUuid)
    ensures UniqueKeys(StoreVmiRows(vmis, v), VmiUuid)
    ensures Lookup(StoreVmiRows(vmis, v), VmiUuid, uuid) ==
      if uuid != v.uuid then Lookup(vmis, VmiUuid, uuid)
      else match Lookup(vmis, VmiUuid, uuid)
        case Some(e) => Some(e)
        case None => Some(VmiRowOf(v))
  {
    UpsertLookup(vmis, VmiUuid, VmiRowOf(v), MergeVmi, uuid);
  }

  /**
   * Storing a migration inserts it whole when its uuid is new; when the uuid
   * is stored already, exactly targetPod, creationTime, endTimestamp,
   * sourceNode, targetNode, completed and failed are overwritten, and name,
   * namespace, phase, vmiName and content are kept.
   */
  lemma StoreMigrationLookup(migrations: seq<Migration>, m: Migration, uuid: string)
    requires UniqueKeys(migrations, MigrationUuid)
    ensures UniqueKeys(StoreMigrationRows(migrations, m), MigrationUuid)
    ensures Lookup(StoreMigrationRows(migrations, m), MigrationUuid, uuid) ==
      if uuid != m.uuid then Lookup(migrations, MigrationUuid, uuid)
      else match Lookup(migrations, MigrationUuid, uuid)
        case Some(e) => Some(Migration(e.name, e.namespace, e.uuid, e.phase, e.vmiName,
                                       m.targetPod, m.creationTime, m.endTimestamp,
                                       m.sourceNode, m.targetNode, m.completed, m.failed, e.content))
        case None => Some(m)
  {
    UpsertLookup(migrations, MigrationUuid, m, MergeMigration, uuid);
    match Lookup(migrations, MigrationUuid, uuid)
    case None =>
    case Some(e) =>
      if uuid == m.uuid {
        assert e.uuid == uuid by {
          var q := (x: Migration) => MigrationUuid(x) == uuid;
          assert e in migrations && q(e);
        }
      }
  }

  /** Re-storing the same pod, VMI or migration changes nothing more. */
  lemma StoresAreIdempotent(pods: seq<Pod>, p: Pod, vmis: seq<VmiRow>, v: VirtualMachineInstance,
                            migrations: seq<Migration>, m: Migration)
    ensures StorePodRows(StorePodRows(pods, p), p) == StorePodRows(pods, p)
    ensures StoreVmiRows(StoreVmiRows(vmis, v), v) == StoreVmiRows(vmis, v)
    ensures StoreMigrationRows(StoreMigrationRows(migrations, m), m) == StoreMigrationRows(migrations, m)
  {
    UpsertIdempotent(pods, PodUuid, p, MergePod);
    UpsertIdempotent(vmis, VmiUuid, VmiRowOf(v), MergeVmi);
    UpsertIdempotent(migrations, MigrationUuid, m, MergeMigration);
  }

  /**
   * For a uuid already stored, the later of two stores wins: storing `a`
   * then `b` leaves the table as storing `b` alone.
   */
  lemma LaterStoreWins(pods: seq<Pod>, p1: Pod, p2: Pod, migrations: seq<Migration>, m1: Migration, m2: Migration)
    requires p1.uuid == p2.uuid && exists i :: 0 <= i < |pods| && pods[i].uuid == p1.uuid
    requires m1.uuid == m2.uuid && exists i :: 0 <= i < |migrations| && migrations[i].uuid == m1.uuid
    ensures StorePodRows(StorePodRows(pods, p1), p2) == StorePodRows(pods, p2)
    ensures StoreMigrationRows(StoreMigrationRows(migrations, m1), m2) == StoreMigrationRows(migrations, m2)
  {
    UpsertSupersedes(pods, PodUuid, p1, p2, MergePod);
    UpsertSupersedes(migrations, MigrationUuid, m1, m2, MergeMigration);
  }

  /**
   * The migration the auto-link stores: identity columns from the row read
   * back by uuid, everything else from the VMI's migration state, content `{}`.
   */
  function LinkedMigration(existing: Migration, st: MigrationState): (r: Migration)
    requires st.startTimestamp.Some? && st.endTimestamp.Some?
    ensures r.uuid == st.migrationUid && r.content == "{}"
    ensures existing.uuid == st.migrationUid ==> MergeMigration(existing, r) == r.(content := existing.content)
  {
    Migration(existing.name, existing.namespace, st.migrationUid, existing.phase, existing.vmiName,
              st.targetPod, st.startTimestamp.value, st.endTimestamp.value,
              st.sourceNode, st.targetNode, st.completed, st.failed, "{}")
  }

  /** Whether the auto-link of a VMI with state `st` finds a row to refresh. */
  predicate LinkApplies(migrations: seq<Migration>, st: Option<MigrationState>)
  {
    st.Some? && MigrationByUuid(migrations, st.value.migrationUid).Some?
  }

  /** The migrations table after a successful auto-link of migration state `st`. */
  function AutoLink(migrations: seq<Migration>, st: MigrationState): (r: seq<Migration>)
    requires MigrationByUuid(migrations, st.migrationUid).Some?
    requires st.startTimestamp.Some? && st.endTimestamp.Some?
    ensures |r| == |migrations|
    ensures forall i :: 0 <= i < |r| ==> r[i].uuid == migrations[i].uuid
    ensures forall i :: 0 <= i < |r| && migrations[i].uuid != st.migrationUid ==> r[i] == migrations[i]
  {
    var linked := LinkedMigration(MigrationByUuid(migrations, st.migrationUid).value, st);
    assert exists j :: 0 <= j < |migrations| && MigrationUuid(migrations[j]) == MigrationUuid(linked) by {
      var m :| m in migrations && m.uuid == st.migrationUid;
      var j :| 0 <= j < |migrations| && migrations[j] == m;
      assert MigrationUuid(migrations[j]) == MigrationUuid(linked);
    }
    StoreMigrationRows(migrations, linked)
  }

  /**
   * A successful auto-link refreshes the migration row with uuid
   * `st.migrationUid` in place: targetPod, start and end time, source and
   * target node, completed and failed come from the state; name, namespace,
   * phase, vmiName and content stay. No row is added and no other row changes.
   */
  lemma AutoLinkRefreshes(migrations: seq<Migration>, st: MigrationState, uuid: string)
    requires UniqueKeys(migrations, MigrationUuid)
    requires MigrationByUuid(migrations, st.migrationUid).Some?
    requires st.startTimestamp.Some? && st.endTimestamp.Some?
    ensures UniqueKeys(AutoLink(migrations, st), MigrationUuid)
    ensures Lookup(AutoLink(migrations, st), MigrationUuid, uuid) ==
      if uuid != st.migrationUid then Lookup(migrations, MigrationUuid, uuid)
      else match Lookup(migrations, MigrationUuid, uuid)
        case Some(e) => Some(e.(targetPod := st.targetPod, creationTime := st.startTimestamp.value,
                                endTimestamp := st.endTimestamp.value, sourceNode := st.sourceNode,
                                targetNode := st.targetNode, completed := st.completed, failed := st.failed))
        case None => None
  {
    var linked := LinkedMigration(MigrationByUuid(migrations, st.migrationUid).value, st);
    StoreMigrationLookup(migrations, linked, uuid);
    assert Lookup(migrations, MigrationUuid, st.migrationUid).Some?;
  }
}
