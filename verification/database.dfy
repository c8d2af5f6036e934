/**
 * The store handle of pkg/backend/db/db.go over its three tables, kept as
 * sequences of rows in table order: the upserts (with the auto-link of
 * `StoreVmi`), the three list views, and the two correlation resolvers.
 */
module Database {
  import opened Wrappers
  import opened Rows
  import opened Table
  import opened Lookups
  import opened Store
  import opened Paging
  import opened Views

  /**
   * How one store statement ends under its one-second deadline: it completes;
   * it fails before it takes effect (the prepare fails, or the server refuses
   * or never runs the statement); or the server commits it but the call
   * still reports an error, because the deadline expired or the connection
   * dropped before the reply arrived.
   */
  datatype CallOutcome = Completed | Failed | CommittedThenFailed

  /**
   * Steps 1 to 3 of the migration resolver: the migration row, the VMI named
   * by its vmiName in its namespace, and the pod named by its targetPod in
   * its namespace.
   */
  datatype MigrationContext = MigrationContext(migration: Migration, vmi: VmiRow, target: Pod)

  function ContextOf(pods: seq<Pod>, vmis: seq<VmiRow>, migrations: seq<Migration>, uuid: string)
    : (r: Option<MigrationContext>)
    ensures r.Some? ==> r.value.migration.uuid == uuid && r.value.vmi in vmis && r.value.target in pods
    ensures r.Some? ==> MigrationByUuid(migrations, uuid) == Some(r.value.migration)
    ensures r.Some? ==> VmiByName(vmis, r.value.migration.vmiName, r.value.migration.namespace) == Some(r.value.vmi)
    ensures r.Some? ==> PodByName(pods, r.value.migration.targetPod, r.value.migration.namespace) == Some(r.value.target)
    ensures r.Some? ==> r.value.vmi.name == r.value.migration.vmiName
                        && r.value.vmi.namespace == r.value.migration.namespace
    ensures r.Some? ==> r.value.target.name == r.value.migration.targetPod
                        && r.value.target.namespace == r.value.migration.namespace
    ensures r.None? <==>
      (|| MigrationByUuid(migrations, uuid).None?
       || VmiByName(vmis, MigrationByUuid(migrations, uuid).value.vmiName,
                    MigrationByUuid(migrations, uuid).value.namespace).None?
       || PodByName(pods, MigrationByUuid(migrations, uuid).value.targetPod,
                    MigrationByUuid(migrations, uuid).value.namespace).None?)
  {
    match MigrationByUuid(migrations, uuid)
    case None => None
    case Some(m) =>
      match VmiByName(vmis, m.vmiName, m.namespace)
      case None => None
      case Some(v) =>
        match PodByName(pods, m.targetPod, m.namespace)
        case None => None
        case Some(t) => Some(MigrationContext(m, v, t))
  }

  /** The source-pod window of a migration: from the VMI's creation to the migration's. */
  function WindowOf(ctx: MigrationContext): (w: SourceWindow)
    ensures forall p :: InWindow(p, w) <==>
      && p.createdBy == ctx.vmi.uuid && p.nodeName == ctx.migration.sourceNode
      && ctx.vmi.creationTime <= p.creationTime <= ctx.migration.creationTime
  {
    SourceWindow(ctx.vmi.uuid, ctx.migration.sourceNode, ctx.vmi.creationTime, ctx.migration.creationTime)
  }

  /** `uuid` and `name` are those of an earliest-created pod in window `w`. */
  ghost predicate IsEarliestSourcePod(pods: seq<Pod>, uuid: string, name: string, w: SourceWindow)
  {
    exists i :: 0 <= i < |pods| && pods[i].uuid == uuid && pods[i].name == name && InWindow(pods[i], w)
                && forall j :: 0 <= j < |pods| && InWindow(pods[j], w) ==> pods[i].creationTime <= pods[j].creationTime
  }

  /** `name` is the name of an agent pod on `node`. */
  ghost predicate IsHandlerOn(pods: seq<Pod>, name: string, node: string)
  {
    IsHandlerName(name) && exists p :: p in pods && p.name == name && p.nodeName == node
  }

  /** The fields set once the migration, its VMI and its target pod are found. */
  predicate ContextFieldsSet(r: QueryResults, uuid: string, ctx: MigrationContext)
  {
    && r.migrationUuid == uuid
    && r.vmiUuid == ctx.vmi.uuid
    && r.targetPod == ctx.migration.targetPod
    && r.targetPodUuid == ctx.target.uuid
    && r.startTimestamp == ctx.migration.creationTime
    && r.endTimestamp == ctx.migration.endTimestamp
  }

  /**
   * Steps 4 and 5 of the migration resolver, fail-fast: the source pod's
   * fields are set when it is found, the source handler's when the source
   * pod and it are found, the target handler's only when everything is found,
   * and the error is NoRows exactly when one of the three is missing.
   */
  predicate SourceAndHandlersSet(pods: seq<Pod>, ctx: MigrationContext, r: QueryResults, err: Option<DbError>)
  {
    var src := EarliestInWindow(pods, WindowOf(ctx));
    var sourceHandler := HandlerOn(pods, ctx.migration.sourceNode);
    var targetHandler := HandlerOn(pods, ctx.migration.targetNode);
    && (err.None? <==> src.Some? && sourceHandler.Some? && targetHandler.Some?)
    && (if src.Some? then r.sourcePodUuid == pods[src.value].uuid && r.sourcePod == pods[src.value].name
        else r.sourcePodUuid == "" && r.sourcePod == "")
    && r.sourceHandler == (if src.Some? && sourceHandler.Some? then sourceHandler.value.name else "")
    && r.targetHandler == (if err.None? then targetHandler.value.name else "")
  }

  class Database {
    var pods: seq<Pod>
    var vmis: seq<VmiRow>
    var migrations: seq<Migration>

    /** Each table's primary key is its uuid column. */
    ghost predicate Valid()
      reads this
    {
      UniqueKeys(pods, PodUuid) && UniqueKeys(vmis, VmiUuid) && UniqueKeys(migrations, MigrationUuid)
    }

    /** Three freshly created, empty tables. */
    constructor ()
      ensures Valid() && pods == [] && vmis == [] && migrations == []
    {
      pods, vmis, migrations := [], [], [];
    }

    /**
     * `StorePod`: a new uuid inserts the pod; a stored uuid gets only its
     * keyid overwritten. A call that fails before the statement takes effect
     * changes nothing; one whose statement was committed has stored the pod
     * even though it reports an error.
     */
    method StorePod(p: Pod, outcome: CallOutcome) returns (err: Option<DbError>)
      requires Valid()
      modifies this
      ensures Valid()
      ensures err == if outcome == Completed then None else Some(DriverError)
      ensures pods == if outcome == Failed then old(pods) else StorePodRows(old(pods), p)
      ensures vmis == old(vmis) && migrations == old(migrations)
    {
      if outcome == Failed {
        return Some(DriverError);
      }
      StorePodLookup(pods, p, p.uuid);
      pods := StorePodRows(pods, p);
      if outcome == CommittedThenFailed {
        return Some(DriverError);
      }
      return None;
    }

    /**
     * `StoreVmiMigration`: a new uuid inserts the migration; a stored uuid
     * gets seven columns overwritten. A call that fails before the statement
     * takes effect changes nothing; one whose statement was committed has
     * stored the migration even though it reports an error.
     */
    method StoreVmiMigration(m: Migration, outcome: CallOutcome) returns (err: Option<DbError>)
      requires Valid()
      modifies this
      ensures Valid()
      ensures err == if outcome == Completed then None else Some(DriverError)
      ensures migrations == if outcome == Failed then old(migrations) else StoreMigrationRows(old(migrations), m)
      ensures pods == old(pods) && vmis == old(vmis)
    {
      if outcome == Failed {
        return Some(DriverError);
      }
      StoreMigrationLookup(migrations, m, m.uuid);
      migrations := StoreMigrationRows(migrations, m);
      if outcome == CommittedThenFailed {
        return Some(DriverError);
      }
      return None;
    }

    /**
     * `StoreVmi`: upserts the VMI row; when that call reports success and
     * the VMI carries a migration state whose migration uid is stored (and
     * reading it back does not fail), refreshes that migration row from the
     * state. Any error of the insert is returned at once, whether or not the
     * server committed it, and then no refresh runs. The refresh is best
     * effort: its error is only logged, and the result is that of the insert.
     * The state's start and end timestamps are dereferenced when the refresh
     * runs, so they must be set then.
     */
    method StoreVmi(vmi: VirtualMachineInstance, insert: CallOutcome, lookupFault: bool, refresh: CallOutcome)
      returns (err: Option<DbError>)
      requires Valid()
      requires insert == Completed && !lookupFault && LinkApplies(migrations, vmi.migrationState) ==>
                 vmi.migrationState.value.startTimestamp.Some? && vmi.migrationState.value.endTimestamp.Some?
      modifies this
      ensures Valid()
      ensures err == if insert == Completed then None else Some(DriverError)
      ensures vmis == if insert == Failed then old(vmis) else StoreVmiRows(old(vmis), vmi)
      ensures migrations ==
        if insert == Completed && !lookupFault && refresh != Failed && LinkApplies(old(migrations), vmi.migrationState)
        then AutoLink(old(migrations), vmi.migrationState.value)
        else old(migrations)
      ensures pods == old(pods)
    {
      if insert == Failed {
        return Some(DriverError);
      }
      StoreVmiLookup(vmis, vmi, vmi.uuid);
      vmis := StoreVmiRows(vmis, vmi);
      if insert == CommittedThenFailed {
        return Some(DriverError);
      }
      if vmi.migrationState.Some? {
        var st := vmi.migrationState.value;
        if !lookupFault {
          var existing := MigrationByUuid(migrations, st.migrationUid);
          if existing.Some? {
            var linked := LinkedMigration(existing.value, st);
            // The store error of the refresh is only logged.
            var syncErr := StoreVmiMigration(linked, refresh);
          }
        }
      }
      return None;
    }

    /** `GetPods`: one page of the pods projection. */
    method GetPods(page: int, perPage: int) returns (r: Result<Response, DbError>)
      requires perPage != 0
      ensures r.Err? <==> LimitRejected(page, perPage)
      ensures r.Ok? ==> r.value.meta == Meta(page, perPage, |pods|, TotalPages(|pods|, perPage))
      ensures r.Ok? ==> |r.value.data| == |Window(pods, page, perPage)|
      ensures r.Ok? ==> forall k :: 0 <= k < |r.value.data| ==>
                r.value.data[k] == ToRecord(PodColumns, PodValues(Window(pods, page, perPage)[k]))
    {
      var rows := ProjectPods(pods);
      r := GenericGet(PodColumns, rows, page, perPage);
      if r.Ok? {
        assert forall k :: 0 <= k < |r.value.data| ==>
          Window(rows, page, perPage)[k] == PodValues(Window(pods, page, perPage)[k]);
      }
    }

    /** `GetVmis`: one page of the VMIs projection. */
    method GetVmis(page: int, perPage: int) returns (r: Result<Response, DbError>)
      requires perPage != 0
      ensures r.Err? <==> LimitRejected(page, perPage)
      ensures r.Ok? ==> r.value.meta == Meta(page, perPage, |vmis|, TotalPages(|vmis|, perPage))
      ensures r.Ok? ==> |r.value.data| == |Window(vmis, page, perPage)|
      ensures r.Ok? ==> forall k :: 0 <= k < |r.value.data| ==>
                r.value.data[k] == ToRecord(VmiColumns, VmiValues(Window(vmis, page, perPage)[k]))
    {
      var rows := ProjectVmis(vmis);
      r := GenericGet(VmiColumns, rows, page, perPage);
      if r.Ok? {
        assert forall k :: 0 <= k < |r.value.data| ==>
          Window(rows, page, perPage)[k] == VmiValues(Window(vmis, page, perPage)[k]);
      }
    }

    /**
     * `GetVmiMigrations`: one page of the migrations projection, restricted
     * to one VMI's migrations when details with a non-empty name are given;
     * the row count of the metadata counts the restricted rows. Under the
     * restriction every record's vmiName and namespace are the requested ones.
     */
    method GetVmiMigrations(page: int, perPage: int, details: Option<VmiDetails>)
      returns (r: Result<Response, DbError>)
      requires perPage != 0
      ensures r.Err? <==> LimitRejected(page, perPage)
      ensures r.Ok? ==> r.value.meta == Meta(page, perPage, |MigrationsOf(migrations, details)|,
                                             TotalPages(|MigrationsOf(migrations, details)|, perPage))
      ensures r.Ok? ==> |r.value.data| == |Window(MigrationsOf(migrations, details), page, perPage)|
      ensures r.Ok? ==> forall k :: 0 <= k < |r.value.data| ==>
                r.value.data[k] == ToRecord(MigrationColumns,
                                            MigrationValues(Window(MigrationsOf(migrations, details), page, perPage)[k]))
      ensures r.Ok? && details.Some? && details.value.name != "" ==>
                forall k :: 0 <= k < |r.value.data| ==>
                  && "vmiName" in r.value.data[k] && r.value.data[k]["vmiName"] == Text(details.value.name)
                  && "namespace" in r.value.data[k] && r.value.data[k]["namespace"] == Text(details.value.namespace)
    {
      var selected := MigrationsOf(migrations, details);
      r := GenericGet(MigrationColumns, ProjectMigrations(selected), page, perPage);
      if r.Ok? {
        var w := Window(selected, page, perPage);
        forall k | 0 <= k < |r.value.data|
          ensures r.value.data[k] == ToRecord(MigrationColumns, MigrationValues(w[k]))
        {
          WindowOfMigrations(selected, page, perPage, k);
        }
        if details.Some? && details.value.name != "" {
          forall k | 0 <= k < |r.value.data|
            ensures "vmiName" in r.value.data[k] && r.value.data[k]["vmiName"] == Text(details.value.name)
            ensures "namespace" in r.value.data[k] && r.value.data[k]["namespace"] == Text(details.value.namespace)
          {
            MigrationRecordIdentifies(w[k]);
            assert w[k] in selected;
          }
        }
      }
    }

    /**
     * `GetMigrationQueryParams`: fail-fast correlation of one migration.
     * A missing migration, VMI or target pod leaves every field empty; past
     * that point the migration, VMI and target-pod fields are set, then the
     * source pod (the earliest pod of the VMI on the source node created
     * between the VMI and the migration), then the agent pods of the source
     * and target nodes; a lookup that finds nothing stops there with NoRows.
     * The namespace is never set.
     */
    method GetMigrationQueryParams(migrationUuid: string) returns (results: QueryResults, err: Option<DbError>)
      ensures results.namespace == ""
      ensures err.Some? ==> err.value == NoRows
      ensures ContextOf(pods, vmis, migrations, migrationUuid).None? ==> results == NoResults && err.Some?
      ensures ContextOf(pods, vmis, migrations, migrationUuid).Some? ==>
        && ContextFieldsSet(results, migrationUuid, ContextOf(pods, vmis, migrations, migrationUuid).value)
        && SourceAndHandlersSet(pods, ContextOf(pods, vmis, migrations, migrationUuid).value, results, err)
      ensures err.None? ==> ContextOf(pods, vmis, migrations, migrationUuid).Some?
      ensures err.None? ==>
        && IsEarliestSourcePod(pods, results.sourcePodUuid, results.sourcePod,
                               WindowOf(ContextOf(pods, vmis, migrations, migrationUuid).value))
        && IsHandlerOn(pods, results.sourceHandler, ContextOf(pods, vmis, migrations, migrationUuid).value.migration.sourceNode)
        && IsHandlerOn(pods, results.targetHandler, ContextOf(pods, vmis, migrations, migrationUuid).value.migration.targetNode)
    {
      results := NoResults;
      var mig := MigrationByUuid(migrations, migrationUuid);
      if mig.None? {
        return results, Some(NoRows);
      }
      var m := mig.value;
      var vmi := VmiByName(vmis, m.vmiName, m.namespace);
      if vmi.None? {
        return results, Some(NoRows);
      }
      var target := PodByName(pods, m.targetPod, m.namespace);
      if target.None? {
        return results, Some(NoRows);
      }
      ghost var ctx := MigrationContext(m, vmi.value, target.value);
      assert ContextOf(pods, vmis, migrations, migrationUuid) == Some(ctx);
      results := results.(startTimestamp := m.creationTime, endTimestamp := m.endTimestamp,
                          targetPod := m.targetPod, targetPodUuid := target.value.uuid,
                          migrationUuid := migrationUuid, vmiUuid := vmi.value.uuid);

      var src := EarliestInWindow(pods, SourceWindow(vmi.value.uuid, m.sourceNode, vmi.value.creationTime, m.creationTime));
      if src.None? {
        return results, Some(NoRows);
      }
      results := results.(sourcePodUuid := pods[src.value].uuid, sourcePod := pods[src.value].name);

      var sourceHandler := HandlerOn(pods, m.sourceNode);
      if sourceHandler.None? {
        return results, Some(NoRows);
      }
      results := results.(sourceHandler := sourceHandler.value.name);

      var targetHandler := HandlerOn(pods, m.targetNode);
      if targetHandler.None? {
        return results, Some(NoRows);
      }
      results := results.(targetHandler := targetHandler.value.name);
      return results, None;
    }

    /**
     * `GetVMIQueryParams`: the VMI's launcher pod on `nodeName` (no time
     * window) and that node's agent pod. The result always carries the VMI
     * uuid; a lookup that finds nothing stops there with NoRows and the
     * fields filled so far.
     */
    method GetVMIQueryParams(vmiUuid: string, nodeName: string) returns (results: QueryResults, err: Option<DbError>)
      ensures results.vmiUuid == vmiUuid
      ensures err.Some? ==> err.value == NoRows
      ensures LauncherOn(pods, vmiUuid, nodeName).None? ==> results == NoResults.(vmiUuid := vmiUuid) && err.Some?
      ensures LauncherOn(pods, vmiUuid, nodeName).Some? ==>
        && results.sourcePodUuid == LauncherOn(pods, vmiUuid, nodeName).value.uuid
        && results.sourcePod == LauncherOn(pods, vmiUuid, nodeName).value.name
        && results.namespace == LauncherOn(pods, vmiUuid, nodeName).value.namespace
        && results.startTimestamp == LauncherOn(pods, vmiUuid, nodeName).value.creationTime
        && results.(sourcePodUuid := "", sourcePod := "", namespace := "", startTimestamp := ZeroTime,
                    sourceHandler := "") == NoResults.(vmiUuid := vmiUuid)
      ensures err.None? <==> LauncherOn(pods, vmiUuid, nodeName).Some? && HandlerOn(pods, nodeName).Some?
      ensures err.None? ==> results.sourceHandler == HandlerOn(pods, nodeName).value.name
      ensures err.Some? ==> results.sourceHandler == ""
      ensures err.None? ==>
        (exists p :: p in pods && p.uuid == results.sourcePodUuid && p.name == results.sourcePod
                     && p.createdBy == vmiUuid && p.nodeName == nodeName
                     && p.namespace == results.namespace && p.creationTime == results.startTimestamp)
        && IsHandlerOn(pods, results.sourceHandler, nodeName)
    {
      results := NoResults.(vmiUuid := vmiUuid);
      var launcher := LauncherOn(pods, vmiUuid, nodeName);
      if launcher.None? {
        return results, Some(NoRows);
      }
      var p := launcher.value;
      results := results.(sourcePodUuid := p.uuid, sourcePod := p.name, namespace := p.namespace,
                          startTimestamp := p.creationTime);

      var handler := HandlerOn(pods, nodeName);
      if handler.None? {
        return results, Some(NoRows);
      }
      results := results.(sourceHandler := handler.value.name);
      return results, None;
    }
  }
}
