/**
 * The three list projections (`GetPods`, `GetVmis`, `GetVmiMigrations`):
 * their column lists, the values one row yields, and the optional
 * vmiName/namespace restriction of the migrations list.
 */
module Views {
  import opened Wrappers
  import opened Rows
  import opened Table
  import opened Paging

  const PodColumns := ["uuid", "name", "namespace", "phase", "activeContainers",
                       "totalContainers", "creationTime", "createdBy"]

  const VmiColumns := ["uuid", "name", "namespace", "phase", "reason", "nodeName", "creationTime"]

  const MigrationColumns := ["name", "namespace", "uuid", "phase", "vmiName", "targetPod",
                             "creationTime", "endTimestamp", "sourceNode", "targetNode",
                             "completed", "failed"]

  /** A BOOLEAN column is a TINYINT holding 1 or 0. */
  function BoolValue(b: bool): Value
  {
    Int(if b then 1 else 0)
  }

  function PodValues(p: Pod): seq<Value>
  {
    [Bytes(p.uuid), Bytes(p.name), Bytes(p.namespace), Bytes(p.phase), Int(p.activeContainers),
     Int(p.totalContainers), Time(p.creationTime), Bytes(p.createdBy)]
  }

  function VmiValues(v: VmiRow): seq<Value>
  {
    [Bytes(v.uuid), Bytes(v.name), Bytes(v.namespace), Bytes(v.phase), Bytes(v.reason),
     Bytes(v.nodeName), Time(v.creationTime)]
  }

  function MigrationValues(m: Migration): seq<Value>
  {
    [Bytes(m.name), Bytes(m.namespace), Bytes(m.uuid), Bytes(m.phase), Bytes(m.vmiName),
     Bytes(m.targetPod), Time(m.creationTime), Time(m.endTimestamp), Bytes(m.sourceNode),
     Bytes(m.targetNode), BoolValue(m.completed), BoolValue(m.failed)]
  }

  function ProjectPods(pods: seq<Pod>): (rows: seq<seq<Value>>)
    ensures WellFormed(PodColumns, rows) && |rows| == |pods|
  {
    seq(|pods|, i requires 0 <= i < |pods| => PodValues(pods[i]))
  }

  function ProjectVmis(vmis: seq<VmiRow>): (rows: seq<seq<Value>>)
    ensures WellFormed(VmiColumns, rows) && |rows| == |vmis|
  {
    seq(|vmis|, i requires 0 <= i < |vmis| => VmiValues(vmis[i]))
  }

  function ProjectMigrations(migrations: seq<Migration>): (rows: seq<seq<Value>>)
    ensures WellFormed(MigrationColumns, rows) && |rows| == |migrations|
  {
    seq(|migrations|, i requires 0 <= i < |migrations| => MigrationValues(migrations[i]))
  }

  /** No list query names a column twice. */
  lemma ColumnsDistinct()
    ensures forall i, j :: 0 <= i < j < |PodColumns| ==> PodColumns[i] != PodColumns[j]
    ensures forall i, j :: 0 <= i < j < |VmiColumns| ==> VmiColumns[i] != VmiColumns[j]
    ensures forall i, j :: 0 <= i < j < |MigrationColumns| ==> MigrationColumns[i] != MigrationColumns[j]
  {
  }

  /**
   * The record of a pod: under each column name of the pods select list, the
   * pod's value of that column, text columns as strings.
   */
  lemma PodRecord(p: Pod)
    ensures forall i :: 0 <= i < |PodColumns| ==>
      Holds(ToRecord(PodColumns, PodValues(p)), PodColumns[i], Convert(PodValues(p)[i]))
  {
    ColumnsDistinct();
    RecordOfDistinct(PodColumns, PodValues(p));
  }

  /**
   * The record of a VMI: under each column name of the VMIs select list, the
   * VMI's value of that column, text columns as strings.
   */
  lemma VmiRecord(v: VmiRow)
    ensures forall i :: 0 <= i < |VmiColumns| ==>
      Holds(ToRecord(VmiColumns, VmiValues(v)), VmiColumns[i], Convert(VmiValues(v)[i]))
  {
    ColumnsDistinct();
    RecordOfDistinct(VmiColumns, VmiValues(v));
  }

  /**
   * The record of a migration: under each column name of the migrations
   * select list, the migration's value of that column, text columns as
   * strings and the two flags as 1 or 0.
   */
  lemma MigrationRecord(m: Migration)
    ensures forall i :: 0 <= i < |MigrationColumns| ==>
      Holds(ToRecord(MigrationColumns, MigrationValues(m)), MigrationColumns[i], Convert(MigrationValues(m)[i]))
  {
    ColumnsDistinct();
    RecordOfDistinct(MigrationColumns, MigrationValues(m));
  }

  /** A migration's record names its VMI and namespace as text. */
  lemma MigrationRecordIdentifies(m: Migration)
    ensures Holds(ToRecord(MigrationColumns, MigrationValues(m)), "vmiName", Text(m.vmiName))
    ensures Holds(ToRecord(MigrationColumns, MigrationValues(m)), "namespace", Text(m.namespace))
  {
    MigrationRecord(m);
    assert MigrationColumns[4] == "vmiName" && MigrationColumns[1] == "namespace";
  }

  /** Cutting a page of the projection is projecting the page of the table. */
  lemma WindowOfMigrations(migrations: seq<Migration>, page: int, perPage: int, k: nat)
    requires !LimitRejected(page, perPage)
    requires k < |Window(migrations, page, perPage)|
    ensures k < |Window(ProjectMigrations(migrations), page, perPage)|
    ensures Window(ProjectMigrations(migrations), page, perPage)[k] == MigrationValues(Window(migrations, page, perPage)[k])
  {
    var projected := ProjectMigrations(migrations);
    WindowLength(migrations, projected, page, perPage);
    if perPage != NoPaging {
      WindowAt(migrations, page, perPage, k);
      WindowAt(projected, page, perPage, k);
    }
  }

  /** The `vmiDetails` argument of `GetVmiMigrations`. */
  datatype VmiDetails = VmiDetails(name: string, namespace: string)

  /** `where vmiName='<name>' AND namespace='<namespace>'`. */
  function OfVmi(details: VmiDetails): Migration -> bool
  {
    (m: Migration) => m.vmiName == details.name && m.namespace == details.namespace
  }

  /**
   * The migrations the list query reads: those of VMI `name` in `namespace`
   * when details with a non-empty name are given, all of them otherwise; in
   * table order, each as often as it is stored.
   */
  function MigrationsOf(migrations: seq<Migration>, details: Option<VmiDetails>): (r: seq<Migration>)
    ensures details.Some? && details.value.name != "" ==>
      forall m :: m in r <==> m in migrations && m.vmiName == details.value.name
                                && m.namespace == details.value.namespace
    ensures details.Some? && details.value.name != "" ==>
      forall m :: multiset(r)[m] == if m.vmiName == details.value.name && m.namespace == details.value.namespace
                                    then multiset(migrations)[m] else 0
    ensures !(details.Some? && details.value.name != "") ==> r == migrations
  {
    if details.Some? && details.value.name != "" then
      Filter(migrations, OfVmi(details.value))
    else migrations
  }

  /**
   * The restriction keeps table order: restricting two runs of migrations is
   * restricting the first followed by restricting the second.
   */
  lemma MigrationsOfAppend(a: seq<Migration>, b: seq<Migration>, details: Option<VmiDetails>)
    ensures MigrationsOf(a + b, details) == MigrationsOf(a, details) + MigrationsOf(b, details)
  {
    if details.Some? && details.value.name != "" {
      FilterAppend(a, b, OfVmi(details.value));
    }
  }
}
