# Persistence layer of logsviewer, modelled in Dafny

This project models the MySQL persistence layer of logsviewer
(`pkg/backend/db/db.go`). The layer stores snapshots of three cluster
resources: pods, virtual-machine instances (VMIs) and VMI live migrations.
Each goes in its own table, keyed by uuid. The layer then answers two kinds
of reads:

- paged list views of each table;
- "reconstruct what happened" queries. These tie a migration or a VMI to
  its launcher pods and to the `virt-handler` agent pods of the nodes
  involved.

The three tables are sequences of rows in table order. They are fields of
the class `Database.Database`. The store methods reassign them, and the
read methods only read them. Every SQL statement of the source is modelled
by what it selects:

- a single-row query (`QueryRow`) returns the first matching row in table order;
- `ORDER BY creationTime ASC LIMIT 1` returns the earliest row, and among
  equally early rows the first one in table order;
- `INSERT … ON DUPLICATE KEY UPDATE` appends a new row, or merges the columns
  named by its UPDATE clause into the stored row, in place.

Modules:

- `Rows`: the row datatypes (`Pod`, `VmiRow`, `Migration`), the VMI as handed
  to the store (`VirtualMachineInstance`) with its `MigrationState`, and
  `QueryResults`. Timestamps are integers, in microseconds from Go's zero
  time, so an unset time is 0.
- `Table`: first match, lookup by key, upsert with a merge function, and
  filter, with their laws.
- `Lookups`: the single-row queries behind the resolvers.
- `Store`: the per-table merge rules of the three upserts and the row built
  by the auto-link.
- `Paging`: `getMeta`'s page count (Go's truncating `/` and `%` written out),
  the LIMIT window, the row-to-record conversion and `genericGet`.
- `Views`: the column lists of the three list queries and the migrations
  filter.
- `Database`: the class holding the tables, with the store methods, the list
  views and the two resolvers.

Behaviour of the code worth noting, which the model follows:

- A re-store does not overwrite the whole row. Only the columns named by the
  UPDATE clause change: `keyid` for pods, nothing for VMIs
  (`uuid=VALUES(uuid)` rewrites the key with itself), and seven columns for
  migrations. The first insert therefore fixes the other columns for good.
- `GetMigrationQueryParams` returns an entirely empty bundle when the
  migration, its VMI or its target pod is missing. It does not return the
  migration-level fields.
- The auto-link keeps the stored migration's `vmiName` and `content` as well
  as its name, namespace and phase.
- `page <= 0` is not validated. With a positive page size the offset is
  negative, and the server rejects the LIMIT clause (`InvalidLimit`). With
  page size -1 the page number is only echoed back.
- `perPage == 0` makes `getMeta` divide by zero, which is a panic and not an
  error return. So it is a precondition.
- Among several agent pods on one node, the first in table order is
  returned. No lexicographic tie-break is applied.
- `StoreVmi` dereferences both timestamps of the migration state when a
  matching migration row exists. A state with an unset timestamp would crash
  the store, so the model requires both to be set in that case.

## Model

| member | source | states |
|---|---|---|
| `Table.FirstIndex` | pkg/backend/db/db.go:679-681 | the row a single-row query scans is the first one matching the condition; none means no row matches (`sql.ErrNoRows`) |
| `Table.First` | pkg/backend/db/db.go:679-681 | the returned row matches, and every row before it does not; nothing is returned exactly when no row matches |
| `Table.Upsert` | pkg/backend/db/db.go:209-211 | the table grows by one row exactly when no stored row has the incoming key, and the new row is then the last one; otherwise the first stored row with the key becomes the merge of it and the incoming row, at the same index; every other row keeps its index and value |
| `Table.UpsertLookup` | pkg/backend/db/db.go:209-211 | after an upsert the key maps to the merged row, or to the new row if it was absent; every other key keeps its row; keys stay unique |
| `Table.UpsertIdempotent` | pkg/backend/db/db.go:209-211 | upserting the same row twice is upserting it once |
| `Table.UpsertSupersedes` | pkg/backend/db/db.go:209-211 | for a stored key, upserting `a` then `b` equals upserting `b` alone |
| `Table.Filter` | pkg/backend/db/db.go:597-598 | a WHERE clause keeps exactly the rows that satisfy it, each as many times as it is stored and no other row |
| `Table.FilterAppend` | pkg/backend/db/db.go:597-598 | a WHERE clause keeps table order: filtering two runs of rows is filtering the first followed by filtering the second |
| `Lookups.PodByName` | pkg/backend/db/db.go:675-693 | the pod found has the requested name and namespace; NoRows exactly when no pod has both |
| `Lookups.VmiByName` | pkg/backend/db/db.go:695-714 | the VMI found has the requested name and namespace; NoRows exactly when no VMI has both |
| `Lookups.MigrationByUuid` | pkg/backend/db/db.go:716-759 | the record found is the stored migration with that uuid, with the unselected content empty; NoRows exactly when the uuid is not stored |
| `Lookups.HandlerOn` | pkg/backend/db/db.go:488 | the agent pod found is on the node and its name starts with `virt-handler`; none exactly when no such pod exists |
| `Lookups.LauncherOn` | pkg/backend/db/db.go:542-548 | the pod found was created by the VMI and is on the node; none exactly when no such pod exists |
| `Lookups.EarliestInWindow` | pkg/backend/db/db.go:487 | the source pod was created by the VMI, on the source node, with creation time in the inclusive window; no pod in the window is older, and every earlier pod in table order is strictly younger; none exactly when the window is empty |
| `Store.MergePodRules` | pkg/backend/db/db.go:209 | a pod re-store keeps the stored uuid, changes the stored row exactly when keyid differs, and the later of two re-stores decides the row |
| `Store.MergeVmiRules` | pkg/backend/db/db.go:210 | a VMI re-store with the stored uuid leaves the stored row exactly as it was |
| `Store.MergeMigrationRules` | pkg/backend/db/db.go:211 | a migration re-store changes the stored row exactly when one of the eight columns of the update clause differs; the later of two re-stores decides the row; re-storing a row onto itself changes nothing |
| `Store.StorePodLookup` | pkg/backend/db/db.go:85-116 | storing a pod inserts it when its uuid is new; for a stored uuid only `keyid` changes; other uuids keep their rows |
| `Store.StoreVmiLookup` | pkg/backend/db/db.go:118-142 | storing a VMI inserts its row (without status) when the uuid is new; a stored uuid keeps its row unchanged |
| `Store.StoreMigrationLookup` | pkg/backend/db/db.go:173-211 | storing a migration inserts it when the uuid is new; for a stored uuid exactly targetPod, creationTime, endTimestamp, sourceNode, targetNode, completed and failed are overwritten; name, namespace, phase, vmiName and content are kept |
| `Store.StoresAreIdempotent` | pkg/backend/db/db.go:209-211 | re-storing the same pod, VMI or migration leaves each table as storing it once |
| `Store.LaterStoreWins` | pkg/backend/db/db.go:209-211 | for a stored pod or migration uuid, the later of two stores decides the updatable columns |
| `Store.LinkedMigration` | pkg/backend/db/db.go:147-161 | the auto-link's row carries the state's migration uid and content `{}`; upserted onto the stored row of that uid, it leaves exactly itself except for the content, which the upsert keeps |
| `Store.AutoLink` | pkg/backend/db/db.go:144-167 | the auto-link adds no row and moves no row: every row keeps its uuid at its index, and every row other than the one of the state's uid is unchanged |
| `Store.AutoLinkRefreshes` | pkg/backend/db/db.go:144-169 | the auto-link updates the migration row named by the state's uid in place: target pod, start/end time, nodes and flags come from the state; name, namespace, phase, vmiName and content are kept; no row is added and no other row changes |
| `Paging.TotalPages` | pkg/backend/db/db.go:437-448 | with a positive page size the page count is the ceiling of rows over page size (the least number of pages holding every row); with -1 it is 1 |
| `Paging.LimitRejectedWhen` | pkg/backend/db/db.go:613-616 | the LIMIT clause is refused never without paging, exactly for a page number below 1 with a positive page size, always for a page size below -1, and never for page size 0 |
| `Paging.Window` | pkg/backend/db/db.go:613-616 | the page holds the rows at `[(page-1)*perPage, (page-1)*perPage + perPage)` in order, clipped to the row count; with -1 it holds every row |
| `Paging.PagesCoverRows` | pkg/backend/db/db.go:437-448 | pages 1 to the page count, read in order, are exactly the rows |
| `Paging.NonEmptyPages` | pkg/backend/db/db.go:613-616 | a page numbered from 1 holds rows exactly when it is at most the page count |
| `Paging.Convert` | pkg/backend/db/db.go:654-660 | no raw bytes reach a record: bytes become the string with the same characters, and anything else passes unchanged |
| `Paging.ToRecord` | pkg/backend/db/db.go:652-661 | a record's keys are exactly the projection's column names |
| `Paging.RecordValue` | pkg/backend/db/db.go:653-660 | each column holds its value converted (bytes become a string, anything else passes unchanged); a repeated name holds its last occurrence's value |
| `Paging.GenericGet` | pkg/backend/db/db.go:608-673 | a LIMIT with a negative number is rejected; otherwise the page's rows in order as records, and the meta echoes page and per_page with the unlimited row count and its page count |
| `Views.PodRecord` | pkg/backend/db/db.go:576 | every column name of the pods select list holds the pod's value of that column, with text columns as strings |
| `Views.VmiRecord` | pkg/backend/db/db.go:585 | every column name of the VMIs select list holds the VMI's value of that column, with text columns as strings |
| `Views.MigrationRecord` | pkg/backend/db/db.go:595 | every column name of the migrations select list holds the migration's value of that column, with text columns as strings and the flags as 1 or 0 |
| `Views.ProjectPods` | pkg/backend/db/db.go:576 | the pods projection has one row per stored pod, with one value per selected column |
| `Views.ProjectVmis` | pkg/backend/db/db.go:585 | the VMIs projection has one row per stored VMI, with one value per selected column |
| `Views.ProjectMigrations` | pkg/backend/db/db.go:595 | the migrations projection has one row per migration read, with one value per selected column |
| `Views.MigrationsOf` | pkg/backend/db/db.go:595-599 | with details holding a non-empty name, exactly the migrations of that vmiName and namespace, each as many times as it is stored; otherwise all of them |
| `Views.MigrationsOfAppend` | pkg/backend/db/db.go:595-599 | the restriction keeps table order: restricting two runs of migrations is restricting the first followed by restricting the second |
| `Database.ContextOf` | pkg/backend/db/db.go:468-481 | the migration is the stored row with the uuid, as the lookup by uuid returns it; the VMI and the target pod are the rows the lookups by name within the migration's namespace return; nothing is returned exactly when one of the three lookups finds nothing |
| `Database.WindowOf` | pkg/backend/db/db.go:487 | a pod is in the source window exactly when the VMI created it, it runs on the migration's source node, and it was created between the VMI's and the migration's creation times, both inclusive |
| `Database.Database.StorePod` | pkg/backend/db/db.go:85-116 | a call that fails before its statement takes effect returns an error and changes nothing; a committed statement upserts the pods table, and the call reports an error exactly when its reply was lost; keys stay unique and the other tables do not change |
| `Database.Database.StoreVmiMigration` | pkg/backend/db/db.go:173-206 | a call that fails before its statement takes effect returns an error and changes nothing; a committed statement upserts the migrations table, and the call reports an error exactly when its reply was lost; the other tables do not change |
| `Database.Database.StoreVmi` | pkg/backend/db/db.go:118-171 | the result is that of the VMI insert alone, and a committed insert upserts the VMI even when it reports an error; the migrations table is auto-linked only after an insert that reports success, when the state's uid is stored, reading it back succeeds and the refresh is committed; it is unchanged otherwise |
| `Database.Database.GetPods` | pkg/backend/db/db.go:575-582 | the k-th record is the record of the k-th pod on the page; the meta counts every pod |
| `Database.Database.GetVmis` | pkg/backend/db/db.go:584-591 | the k-th record is the record of the k-th VMI on the page; the meta counts every VMI |
| `Database.Database.GetVmiMigrations` | pkg/backend/db/db.go:593-606 | records and meta come from the filtered migrations; when filtered, every record's vmiName and namespace are the requested ones |
| `Database.Database.GetMigrationQueryParams` | pkg/backend/db/db.go:464-536 | see the paragraph below |
| `Database.Database.GetVMIQueryParams` | pkg/backend/db/db.go:539-573 | the result always carries the VMI uuid; a missing launcher pod leaves everything else empty; otherwise uuid, name, namespace and start time come from the VMI's pod on the node (no time window); on success the handler is an agent pod on that node; the error is NoRows exactly when a lookup fails |

`Database.Database.GetMigrationQueryParams` states the following:

- It never sets the namespace.
- A missing migration, VMI or target pod gives an all-empty bundle.
- Otherwise the migration uuid, the VMI uuid, the target pod, the target pod
  uuid and the start/end times are set.
- Then the fields of the earliest source pod in the window are set, then the
  source handler, then the target handler. A step that finds nothing stops
  with NoRows, and the later fields stay empty.
- On success the source pod satisfies the window and is the earliest pod in
  it. Both handlers are `virt-handler` pods on their respective nodes.

## Left out

- Connection setup, credentials, `Shutdown`, table creation and `DropTables`: these are I/O plumbing and schema with no behaviour of their own. The constructor stands for three empty tables.
- The one-second deadlines and driver errors. Each store call takes an outcome parameter: it completes; it fails before its statement takes effect; or the server commits the statement but the call reports an error, because the deadline expired or the connection dropped before the reply. The list views and the resolvers model only `sql.ErrNoRows` and the rejected LIMIT clause.
- Text formatting and parsing of times: the `2006-01-02 15:04:05.999999` layout, the RFC 3339 round trip in `getSingleMigrationByUUID`, and its conversion error path. Timestamps are exact integers. The `datetime` columns have no fractional seconds, so the server rounds stored times to whole seconds; the model does not.
- MySQL collation. The model compares strings exactly. On the server, string equality, key matching and `LIKE 'virt-handler%'` follow the column collation. Under the MySQL 5.7 default (`utf8_general_ci`/`utf8mb4_general_ci`, PAD SPACE) they are case-insensitive and ignore trailing spaces. Under the MySQL 8 default (`utf8mb4_0900_ai_ci`, NO PAD) they are case- and accent-insensitive and do not ignore trailing spaces.
- Column ranges: the TINYINT container counts and varchar(100) lengths are not bounded in the model. Go's 64-bit overflow of `(page-1)*perPage` is not modelled either.
- Row order without ORDER BY is unspecified in SQL. InnoDB usually returns rows in primary-key (uuid) order. The model chooses insertion order, so "first match" and the order of list pages are those of insertion.
- Content is an opaque string. The server's validation of the JSON column is not modelled.
- Query text built by string formatting, and its injection risk: the model states what each query selects.
- Logging, and the kubevirt/metav1 library types, which are replaced by `MigrationState`.
- Concurrent writers: each method runs as one atomic step.
