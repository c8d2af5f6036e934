/**
 * The records the persistence layer of pkg/backend/db/db.go stores and
 * returns: one datatype per table row, the embedded migration state of a
 * virtual-machine instance, and the correlation bundle of the resolvers.
 */
module Rows {
  import opened Wrappers

  /**
   * A timestamp in microseconds, counted from Go's zero `time.Time`
   * (0001-01-01 00:00:00 UTC), so that an unset time field is 0.
   */
  type Timestamp = int

  const ZeroTime: Timestamp := 0

  /** A row of the `pods` table; `createdBy` is the uuid of the owning VMI. */
  datatype Pod = Pod(
    key: string,
    kind: string,
    name: string,
    namespace: string,
    uuid: string,
    phase: string,
    activeContainers: int,
    totalContainers: int,
    nodeName: string,
    creationTime: Timestamp,
    content: string,
    createdBy: string)

  /**
   * The migration state a VMI carries in its status. The two timestamps are
   * pointers in the source, and either may be unset.
   */
  datatype MigrationState = MigrationState(
    targetPod: string,
    startTimestamp: Option<Timestamp>,
    endTimestamp: Option<Timestamp>,
    sourceNode: string,
    targetNode: string,
    completed: bool,
    failed: bool,
    migrationUid: string)

  /** A VMI as the watcher hands it to the store. */
  datatype VirtualMachineInstance = VirtualMachineInstance(
    name: string,
    namespace: string,
    uuid: string,
    reason: string,
    phase: string,
    nodeName: string,
    creationTime: Timestamp,
    migrationState: Option<MigrationState>,
    content: string)

  /** A row of the `vmis` table: a VMI without its status. */
  datatype VmiRow = VmiRow(
    name: string,
    namespace: string,
    uuid: string,
    reason: string,
    phase: string,
    nodeName: string,
    creationTime: Timestamp,
    content: string)

  /** A row of the `vmimigrations` table; `vmiName` names the VMI in `namespace`. */
  datatype Migration = Migration(
    name: string,
    namespace: string,
    uuid: string,
    phase: string,
    vmiName: string,
    targetPod: string,
    creationTime: Timestamp,
    endTimestamp: Timestamp,
    sourceNode: string,
    targetNode: string,
    completed: bool,
    failed: bool,
    content: string)

  /** The correlation bundle the two resolvers fill in. */
  datatype QueryResults = QueryResults(
    namespace: string,
    sourcePodUuid: string,
    targetPodUuid: string,
    vmiUuid: string,
    migrationUuid: string,
    sourcePod: string,
    targetPod: string,
    startTimestamp: Timestamp,
    endTimestamp: Timestamp,
    sourceHandler: string,
    targetHandler: string)

  /** The zero value of QueryResults: every text empty, every time unset. */
  const NoResults := QueryResults("", "", "", "", "", "", "", ZeroTime, ZeroTime, "", "")

  /**
   * NoRows is `sql.ErrNoRows`; InvalidLimit is the server rejecting a LIMIT
   * clause with a negative number; DriverError is any other failure of a
   * store call (deadline exceeded, lost connection).
   */
  datatype DbError = NoRows | InvalidLimit | DriverError

  function PodUuid(p: Pod): string { p.uuid }

  function VmiUuid(v: VmiRow): string { v.uuid }

  function MigrationUuid(m: Migration): string { m.uuid }
}
