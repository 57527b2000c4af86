# Bulk operation status, modelled in Dafny

This project models the bulk status service of Magento's asynchronous-operations
module (`BulkOperationsStatus`). A *bulk* is a batch of asynchronous operations.
Each operation is a row of the operation table and carries one status: OPEN,
COMPLETE, RETRIABLY_FAILED or NOT_RETRIABLY_FAILED. Each bulk is a row of the
bulk table. That row stores the number of operations scheduled for the bulk
(`operation_count`), its owner and its start time. The service answers these
questions:

- the aggregate status of a bulk: NOT_STARTED, IN_PROGRESS, FINISHED_SUCCESSFULLY
  or FINISHED_WITH_FAILURE, derived from three counts;
- which operations of a bulk failed, and how many operations of a bulk have a
  given status;
- the detailed and short status objects of a bulk, with its operation list,
  or a not-found error;
- the bulks of one user, ordered by a status priority list and then by start time.

The database becomes one immutable value, `Store(operations, bulks)`. It holds
both tables as row sequences in storage order. Every service call reads this
snapshot and changes nothing. A collection filter is `Filter(bulkUuid, statuses)`.
Reading a collection's items is `Select`. Its `getSize` is `Count`, a separate
count, and a lemma ties the two together.

Files:

- `bulk_types.dfy`: module `BulkTypes`, which holds the statuses, the rows and the store.
- `operation_queries.dfy`: module `OperationQueries`, which holds the collection filters, `getFailedOperationsByBulkId` and `getOperationsCountByBulkIdAndStatus`.
- `bulk_status.dfy`: module `BulkStatusCalculation`, which holds `getOperationCount`, `getBulkStatus` and their properties.
- `bulk_listing.dfy`: module `BulkListing`, which holds the ordering rule of `getBulksByUser`.
- `bulk_status_objects.dfy`: module `BulkStatusObjects`, which holds `getBulkDetailedStatus` and `getBulkShortStatus` as methods over a status-object class.

Where the code's comments and its queries differ, the model follows the queries:

- The comment at `BulkOperationsStatus.php:168` calls the first count "operations
  with any status but open". The query at :170-172 counts every row of the bulk.
  The model counts every row. `ScenarioOpenRowsReadAsFailure` shows the
  consequence: two OPEN rows and one COMPLETE row out of three scheduled give
  FINISHED_WITH_FAILURE.
- The code's in-progress test has a second clause, `open !== total` (:204). It
  cannot change the outcome once rows exist. The model keeps the clause, and
  `OpenClauseIsRedundant` proves it changes nothing.
- The code calls `addOrder('start_time')` without a direction, and that
  method's default is not part of this model. The direction is therefore a
  parameter.

## Model

| member | source | states |
|---|---|---|
| `OperationQueries.Select` | app/code/Magento/AsynchronousOperations/Model/BulkOperationsStatus.php:112-115 | A filtered collection's items are exactly the matching rows, each as often as stored, never more rows than the table. |
| `OperationQueries.Count` | app/code/Magento/AsynchronousOperations/Model/BulkOperationsStatus.php:129-131 | A collection's size (a row-by-row count) never exceeds the number of rows. |
| `OperationQueries.CountIsSelectSize` | app/code/Magento/AsynchronousOperations/Model/BulkOperationsStatus.php:112-131 | For every filter, the size query and the item query agree. |
| `OperationQueries.CountZeroIffNoMatch` | app/code/Magento/AsynchronousOperations/Model/BulkOperationsStatus.php:170-174 | A count is zero if and only if no row matches the filter. |
| `OperationQueries.CountStatusesAtMostBulkRows` | app/code/Magento/AsynchronousOperations/Model/BulkOperationsStatus.php:123-132 | Adding a status filter to a bulk filter never counts more rows. |
| `OperationQueries.CountDisjointUnion` | app/code/Magento/AsynchronousOperations/Model/BulkOperationsStatus.php:106-114 | Counting by the union of two disjoint status sets is the sum of the two counts. |
| `OperationQueries.CountAllStatusesIsBulkRows` | app/code/Magento/AsynchronousOperations/Model/BulkOperationsStatus.php:170-172 | Filtering by every status counts the same rows as no status filter. |
| `OperationQueries.FailureCodes` | app/code/Magento/AsynchronousOperations/Model/BulkOperationsStatus.php:106-111 | A given failure type is the only code. Without one, the codes are the two failure statuses and never OPEN or COMPLETE. |
| `OperationQueries.GetFailedOperationsByBulkId` | app/code/Magento/AsynchronousOperations/Model/BulkOperationsStatus.php:104-118 | The result is exactly the stored operations of the bulk whose status is a failure code, with their multiplicities. Without a failure type it holds only failed rows. It is empty for an unknown bulk. |
| `OperationQueries.GetOperationsCountByBulkIdAndStatus` | app/code/Magento/AsynchronousOperations/Model/BulkOperationsStatus.php:123-132 | The result equals the number of rows whose bulk and status both match, never exceeds the bulk's row count, and is 0 for an unknown bulk. |
| `OperationQueries.FailedCountsAddUp` | app/code/Magento/AsynchronousOperations/Model/BulkOperationsStatus.php:104-132 | The RETRIABLY_FAILED count plus the NOT_RETRIABLY_FAILED count equals the length of the default failed-operations list. |
| `OperationQueries.StatusCountsPartitionRows` | app/code/Magento/AsynchronousOperations/Model/BulkOperationsStatus.php:123-132 | The four per-status counts of a bulk add up to its row count. |
| `BulkStatusCalculation.FindBulk` | app/code/Magento/AsynchronousOperations/Model/BulkOperationsStatus.php:222-226 | The lookup by uuid finds a row if and only if one carries the uuid. It is that row, and the only one when uuids are unique. |
| `BulkStatusCalculation.GetOperationCount` | app/code/Magento/AsynchronousOperations/Model/BulkOperationsStatus.php:217-227 | The result is the bulk row's stored `operation_count`, or 0 when the row is missing (the `(int)` cast of a failed fetch). |
| `BulkStatusCalculation.StatusFromCounts` | app/code/Magento/AsynchronousOperations/Model/BulkOperationsStatus.php:174-208 | Each of the four results holds exactly under its own condition on (rows, total, complete). The four conditions are disjoint and cover every input, negative counts included. |
| `BulkStatusCalculation.OpenClauseIsRedundant` | app/code/Magento/AsynchronousOperations/Model/BulkOperationsStatus.php:204-206 | Dropping `open !== total` from the in-progress test changes no outcome. |
| `BulkStatusCalculation.RowCount` | app/code/Magento/AsynchronousOperations/Model/BulkOperationsStatus.php:170-172 | The first count is zero if and only if no operation row, of any status, references the bulk. |
| `BulkStatusCalculation.CompleteCount` | app/code/Magento/AsynchronousOperations/Model/BulkOperationsStatus.php:191-198 | The COMPLETE count is at most the row count, and is zero if and only if no row of the bulk is COMPLETE. |
| `BulkStatusCalculation.GetBulkStatus` | app/code/Magento/AsynchronousOperations/Model/BulkOperationsStatus.php:165-209 | NOT_STARTED holds if and only if no row references the bulk. FINISHED_SUCCESSFULLY holds if and only if rows exist and the COMPLETE count equals the stored count. IN_PROGRESS holds if and only if rows exist, the counts differ, and the stored count exceeds the rows. FINISHED_WITH_FAILURE covers the rest. |
| `BulkStatusCalculation.MissingBulkRow` | app/code/Magento/AsynchronousOperations/Model/BulkOperationsStatus.php:200-208 | With rows but no bulk row, zero COMPLETE rows give FINISHED_SUCCESSFULLY and one or more give FINISHED_WITH_FAILURE. |
| `BulkStatusCalculation.AllCompleteIffCountsEqual` | app/code/Magento/AsynchronousOperations/Model/BulkOperationsStatus.php:191-198 | The COMPLETE count equals the row count if and only if every row of the bulk is COMPLETE. |
| `BulkStatusCalculation.SuccessMeansAllScheduledComplete` | app/code/Magento/AsynchronousOperations/Model/BulkOperationsStatus.php:200-202 | When the stored count is at least the row count, success holds if and only if every scheduled operation has a row and every row is COMPLETE. |
| `BulkStatusCalculation.InProgressMeansRowsMissing` | app/code/Magento/AsynchronousOperations/Model/BulkOperationsStatus.php:204-206 | When the stored count is at least the row count, in progress holds if and only if some rows exist and some scheduled operations have no row yet. |
| `BulkStatusCalculation.ScenarioNoRows` | app/code/Magento/AsynchronousOperations/Model/BulkOperationsStatus.php:174-176 | A bulk with three scheduled operations and no rows has not started. |
| `BulkStatusCalculation.ScenarioOpenRowsReadAsFailure` | app/code/Magento/AsynchronousOperations/Model/BulkOperationsStatus.php:168-208 | Three scheduled operations, two OPEN rows and one COMPLETE row read as FINISHED_WITH_FAILURE. |
| `BulkStatusCalculation.ScenarioRowsMissing` | app/code/Magento/AsynchronousOperations/Model/BulkOperationsStatus.php:204-206 | Five scheduled operations with three COMPLETE rows read as IN_PROGRESS. |
| `BulkStatusCalculation.ScenarioAllComplete` | app/code/Magento/AsynchronousOperations/Model/BulkOperationsStatus.php:200-202 | Two scheduled operations with two COMPLETE rows read as FINISHED_SUCCESSFULLY. |
| `BulkListing.FieldPosition` | app/code/Magento/AsynchronousOperations/Model/BulkOperationsStatus.php:152-154 | MySQL `FIELD` gives the 1-based position of the first equal entry, or 0 if and only if the value is not in the list. |
| `BulkListing.UserRows` | app/code/Magento/AsynchronousOperations/Model/BulkOperationsStatus.php:150-156 | The result holds exactly the rows whose `user_id` matches, each as often as stored, each carrying its computed status. |
| `BulkListing.InsertKeepsSorted` | app/code/Magento/AsynchronousOperations/Model/BulkOperationsStatus.php:151-157 | Inserting into a sequence in listing order keeps it in listing order. |
| `BulkListing.SortForListingIsSorted` | app/code/Magento/AsynchronousOperations/Model/BulkOperationsStatus.php:151-157 | Sorting puts any sequence into listing order, and the result is a permutation of it. |
| `BulkListing.GetBulksByUser` | app/code/Magento/AsynchronousOperations/Model/BulkOperationsStatus.php:137-160 | The result is a permutation of the user's bulk rows with their computed status. It is ordered by the status's position in the priority list `StatusPriority` (RETRIABLY_FAILED, NOT_RETRIABLY_FAILED, NOT_STARTED, OPEN, COMPLETE; lines 142-148), then by start time in the given direction. |
| `BulkListing.UnlistedStatusesComeFirst` | app/code/Magento/AsynchronousOperations/Model/BulkOperationsStatus.php:152-154 | A bulk whose status is not in the priority list (position 0) comes before every bulk whose status is in it. |
| `BulkListing.FailuresBeforeCompletions` | app/code/Magento/AsynchronousOperations/Model/BulkOperationsStatus.php:142-148 | A bulk computed as RETRIABLY_FAILED comes before every bulk computed as COMPLETE. |
| `BulkListing.SamePositionOrderedByStartTime` | app/code/Magento/AsynchronousOperations/Model/BulkOperationsStatus.php:156-157 | Bulks at the same priority position are in start-time order. |
| `BulkStatusObjects.BulkStatusObject.constructor` | app/code/Magento/AsynchronousOperations/Model/BulkOperationsStatus.php:234 | A factory-made status object has no bulk id, no operations, and empty or zero summary fields (uuid, user, description, operation count, start time). |
| `BulkStatusObjects.BulkStatusObject.Load` | app/code/Magento/AsynchronousOperations/Model/BulkOperationsStatus.php:237 | Loading copies the found row into the summary fields and sets the id. With no row it leaves the object as it was. |
| `BulkStatusObjects.BulkStatusObject.SetOperationsList` | app/code/Magento/AsynchronousOperations/Model/BulkOperationsStatus.php:248 | The operation list is replaced, and only it. |
| `BulkStatusObjects.LoadBulkStatus` | app/code/Magento/AsynchronousOperations/Model/BulkOperationsStatus.php:234-250 | The call fails with the requested uuid if and only if no bulk row has it. Otherwise the object holds that row and exactly the bulk's operations. |
| `BulkStatusObjects.GetBulkDetailedStatus` | app/code/Magento/AsynchronousOperations/Model/BulkOperationsStatus.php:232-251 | The not-found error carries the uuid and is raised if and only if no bulk row exists. Otherwise the detailed object holds the row and every operation of the bulk, with multiplicities. |
| `BulkStatusObjects.GetBulkShortStatus` | app/code/Magento/AsynchronousOperations/Model/BulkOperationsStatus.php:256-274 | The existence check and the attached list are the same as for the detailed status, and the result is in the short shape. |

## Left out

- Dependency injection, the factories' wiring and the service's constructor are not modelled, because they only connect collaborators.
- SQL construction, connections, metadata lookup, collection internals and `EntityManager::load` are left out. The abstract store replaces them: `Select`, `Count`, `FindBulk` and `BulkStatusObject.Load` model what those queries return.
- The `CalculatedStatusSql` expression is left out, because its source is not part of this model. `GetBulksByUser` takes the computed status as an input function from a bulk row to a status label, and nothing ties it to `GetBulkStatus`.
- The default direction of `addOrder` is not part of this model, so `GetBulksByUser` takes the `start_time` direction as a parameter.
- GetBulksByUser: the database may return rows that tie on both sort keys in any order. The contract promises only the sort keys and the permutation, and the function fixes one tie order.
- Concurrency is left out. The separate reads of `getBulkStatus` run against one immutable snapshot, and writers running between the reads are not modelled.
- Message translation (`__()`) is left out. The error value carries only the uuid.
- The numeric values of the status constants are not visible, so statuses are datatypes. The priority list and `FIELD` compare labels, so numeric collisions between operation-level and bulk-level constants are not modelled.
- FailureCodes: PHP truthiness is modelled by one `None` case. It stands for null and every falsy argument; a status constant whose value is falsy is not distinguished.
- The `(int)` cast is modelled only for the missing-row case, which reads as 0. A non-numeric or NULL `operation_count` is not modelled, because the column is an integer column.
- The short status shape differs from the detailed shape only by a tag. The two interfaces' other differences are not part of this model.

