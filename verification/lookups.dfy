/**
 * The single-row queries of pkg/backend/db/db.go, read as what they select:
 * a filter over a table, then the first matching row in table order, or,
 * for the source pod of a migration, the earliest-created one.
 */
module Lookups {
  import opened Wrappers
  import opened Rows
  import opened Table

  /** The name prefix of the per-node agent pods (`name like 'virt-handler%'`). */
  const HandlerPrefix := "virt-handler"

  predicate IsHandlerName(name: string)
  {
    HandlerPrefix <= name
  }

  /** `getPodUUIDByName`: the pod with this name in this namespace. */
  function PodByName(pods: seq<Pod>, name: string, namespace: string): (r: Option<Pod>)
    ensures r.Some? ==> r.value in pods && r.value.name == name && r.value.namespace == namespace
    ensures r.None? <==> forall p :: p in pods ==> !(p.name == name && p.namespace == namespace)
  {
    First(pods, (p: Pod) => p.name == name && p.namespace == namespace)
  }

  /** `getVMICreationTimeByName`: the VMI with this name in this namespace. */
  function VmiByName(vmis: seq<VmiRow>, name: string, namespace: string): (r: Option<VmiRow>)
    ensures r.Some? ==> r.value in vmis && r.value.name == name && r.value.namespace == namespace
    ensures r.None? <==> forall v :: v in vmis ==> !(v.name == name && v.namespace == namespace)
  {
    First(vmis, (v: VmiRow) => v.name == name && v.namespace == namespace)
  }

  /**
   * `getSingleMigrationByUUID`: the migration row with this uuid. The query
   * does not select the content column, so the returned record's content is
   * empty.
   */
  function MigrationByUuid(migrations: seq<Migration>, uuid: string): (r: Option<Migration>)
    ensures r.Some? ==> r.value.uuid == uuid && r.value.content == ""
    ensures r.Some? ==> exists m :: m in migrations && m.uuid == uuid && r.value == m.(content := "")
    ensures r.None? <==> forall m :: m in migrations ==> m.uuid != uuid
  {
    match Lookup(migrations, MigrationUuid, uuid)
    case None => None
    case Some(m) => Some(m.(content := ""))
  }

  /** `name like 'virt-handler%'` on node `node`: the node's agent pod. */
  function HandlerOn(pods: seq<Pod>, node: string): (r: Option<Pod>)
    ensures r.Some? ==> r.value in pods && r.value.nodeName == node && IsHandlerName(r.value.name)
    ensures r.None? <==> forall p :: p in pods ==> !(p.nodeName == node && IsHandlerName(p.name))
  {
    First(pods, (p: Pod) => p.nodeName == node && IsHandlerName(p.name))
  }

  /** The launcher pod of VMI `vmiUuid` on node `node`, with no time window. */
  function LauncherOn(pods: seq<Pod>, vmiUuid: string, node: string): (r: Option<Pod>)
    ensures r.Some? ==> r.value in pods && r.value.createdBy == vmiUuid && r.value.nodeName == node
    ensures r.None? <==> forall p :: p in pods ==> !(p.createdBy == vmiUuid && p.nodeName == node)
  {
    First(pods, (p: Pod) => p.createdBy == vmiUuid && p.nodeName == node)
  }

  /**
   * What a source pod of a migration must satisfy: created by the VMI, on the
   * migration's source node, and created in `[from, to]` (both ends included,
   * as BETWEEN does).
   */
  datatype SourceWindow = SourceWindow(vmiUuid: string, node: string, from: Timestamp, to: Timestamp)

  predicate InWindow(p: Pod, w: SourceWindow)
  {
    p.createdBy == w.vmiUuid && p.nodeName == w.node && w.from <= p.creationTime <= w.to
  }

  /**
   * `ORDER BY creationTime ASC LIMIT 1` over the pods in the window: the
   * earliest-created one, and among equally early ones the first in table
   * order.
   */
  function EarliestInWindow(pods: seq<Pod>, w: SourceWindow): (r: Option<nat>)
    ensures r.Some? ==> r.value < |pods| && InWindow(pods[r.value], w)
    ensures r.Some? ==> forall j :: 0 <= j < |pods| && InWindow(pods[j], w) ==>
                          pods[r.value].creationTime <= pods[j].creationTime
    ensures r.Some? ==> forall j :: 0 <= j < r.value && InWindow(pods[j], w) ==>
                          pods[r.value].creationTime < pods[j].creationTime
    ensures r.None? <==> forall j :: 0 <= j < |pods| ==> !InWindow(pods[j], w)
    decreases |pods|
  {
    if |pods| == 0 then None
    else
      var last := |pods| - 1;
      var earlier := EarliestInWindow(pods[..last], w);
      if !InWindow(pods[last], w) then earlier
      else if earlier.Some? && pods[earlier.value].creationTime <= pods[last].creationTime then earlier
      else Some(last)
  }
}
