/**
 * The aggregate status of one bulk, derived from three numbers: how many
 * operation rows reference the bulk, the bulk row's stored `operation_count`,
 * and how many of the operation rows are COMPLETE.
 */
module BulkStatusCalculation {
  import opened BulkTypes
  import opened OperationQueries

  /** The first row of the bulk table that carries `uuid`, if any. */
  function FindBulk(bulks: seq<Bulk>, uuid: Uuid): (r: Option<Bulk>)
    ensures r.None? <==> NoBulkRow(bulks, uuid)
    ensures r.Some? ==> r.value in bulks && r.value.uuid == uuid
    ensures r.Some? && UniqueBulkUuids(bulks) ==> forall b :: b in bulks && b.uuid == uuid ==> b == r.value
  {
    if bulks == [] then None
    else if bulks[0].uuid == uuid then Some(bulks[0])
    else
      var r := FindBulk(bulks[1..], uuid);
      assert UniqueBulkUuids(bulks) ==> UniqueBulkUuids(bulks[1..]);
      assert forall b :: b in bulks <==> b == bulks[0] || b in bulks[1..];
      r
  }

  /**
   * getOperationCount: the `operation_count` column of the bulk's row. A
   * missing row makes the query fetch `false`, which the `(int)` cast reads as 0.
   */
  function GetOperationCount(store: Store, uuid: Uuid): (n: int)
    ensures NoBulkRow(store.bulks, uuid) ==> n == 0
    ensures forall b :: b in store.bulks && b.uuid == uuid && UniqueBulkUuids(store.bulks) ==> n == b.operationCount
  {
    match FindBulk(store.bulks, uuid)
    case None => 0
    case Some(b) => b.operationCount
  }

  /**
   * The decision of getBulkStatus over its three counts, with its ordered
   * tests: no rows, then all complete, then some still open.
   */
  function StatusFromCounts(rows: int, total: int, complete: int): (s: BulkStatus)
    ensures s == NotStarted <==> rows == 0
    ensures s == FinishedSuccessfully <==> rows != 0 && complete == total
    ensures s == InProgress <==> rows != 0 && complete != total && total > rows
    ensures s == FinishedWithFailure <==> rows != 0 && complete != total && total <= rows
  {
    if rows == 0 then NotStarted
    else
      var open := total - rows;
      if complete == total then FinishedSuccessfully
      else if open > 0 && open != total then InProgress
      else FinishedWithFailure
  }

  /** The same decision without the `open != total` clause. */
  function StatusFromCountsWithoutOpenClause(rows: int, total: int, complete: int): BulkStatus
  {
    if rows == 0 then NotStarted
    else if complete == total then FinishedSuccessfully
    else if total - rows > 0 then InProgress
    else FinishedWithFailure
  }

  /**
   * Once rows exist, `open != total` always holds, so dropping the clause
   * changes no outcome.
   */
  lemma OpenClauseIsRedundant(rows: int, total: int, complete: int)
    ensures StatusFromCounts(rows, total, complete) == StatusFromCountsWithoutOpenClause(rows, total, complete)
  {
  }

  /** The number of operation rows of a bulk, whatever their status. */
  function RowCount(store: Store, uuid: Uuid): (n: nat)
    ensures n == 0 <==> NoOperationsOf(store.operations, uuid)
  {
    CountZeroIffNoMatch(store.operations, ByBulk(uuid));
    Count(store.operations, ByBulk(uuid))
  }

  /** The number of COMPLETE operation rows of a bulk. */
  function CompleteCount(store: Store, uuid: Uuid): (n: nat)
    ensures n <= RowCount(store, uuid)
    ensures n == 0 <==> forall o :: o in store.operations && o.bulkUuid == uuid ==> o.status != Complete
  {
    CountStatusesAtMostBulkRows(store.operations, uuid, {Complete});
    CountZeroIffNoMatch(store.operations, ByBulkAndStatuses(uuid, {Complete}));
    Count(store.operations, ByBulkAndStatuses(uuid, {Complete}))
  }

  /**
   * getBulkStatus: the row count is read first and decides NOT_STARTED on its
   * own; otherwise the stored operation count and the COMPLETE count decide.
   */
  function GetBulkStatus(store: Store, uuid: Uuid): (s: BulkStatus)
    ensures s == NotStarted <==> NoOperationsOf(store.operations, uuid)
    ensures s == FinishedSuccessfully <==>
              !NoOperationsOf(store.operations, uuid) && CompleteCount(store, uuid) == GetOperationCount(store, uuid)
    ensures s == InProgress <==>
              && !NoOperationsOf(store.operations, uuid)
              && CompleteCount(store, uuid) != GetOperationCount(store, uuid)
              && GetOperationCount(store, uuid) > RowCount(store, uuid)
    ensures s == FinishedWithFailure <==>
              && !NoOperationsOf(store.operations, uuid)
              && CompleteCount(store, uuid) != GetOperationCount(store, uuid)
              && GetOperationCount(store, uuid) <= RowCount(store, uuid)
  {
    var processed := RowCount(store, uuid);
    if processed == 0 then NotStarted
    else StatusFromCounts(processed, GetOperationCount(store, uuid), CompleteCount(store, uuid))
  }

  /**
   * A bulk with operation rows but no bulk row has a stored count of 0: it
   * reads as finished successfully while none of its rows is COMPLETE, and as
   * finished with failure as soon as one is.
   */
  lemma MissingBulkRow(store: Store, uuid: Uuid)
    requires NoBulkRow(store.bulks, uuid)
    requires !NoOperationsOf(store.operations, uuid)
    ensures (forall o :: o in store.operations && o.bulkUuid == uuid ==> o.status != Complete)
            ==> GetBulkStatus(store, uuid) == FinishedSuccessfully
    ensures (exists o :: o in store.operations && o.bulkUuid == uuid && o.status == Complete)
            ==> GetBulkStatus(store, uuid) == FinishedWithFailure
  {
  }

  /**
   * The number of COMPLETE rows equals the number of rows exactly when every
   * row of the bulk is COMPLETE.
   */
  lemma {:induction false} AllCompleteIffCountsEqual(operations: seq<Operation>, uuid: Uuid)
    ensures Count(operations, ByBulkAndStatuses(uuid, {Complete})) == Count(operations, ByBulk(uuid))
            <==> forall o :: o in operations && o.bulkUuid == uuid ==> o.status == Complete
  {
    if operations != [] {
      AllCompleteIffCountsEqual(operations[1..], uuid);
      CountStatusesAtMostBulkRows(operations[1..], uuid, {Complete});
      assert forall o :: o in operations <==> o == operations[0] || o in operations[1..];
    }
  }

  /**
   * For a bulk whose row exists and whose stored count is at least its number
   * of operation rows, FINISHED_SUCCESSFULLY means every scheduled operation
   * has a row and every row is COMPLETE.
   */
  lemma SuccessMeansAllScheduledComplete(store: Store, uuid: Uuid)
    requires GetOperationCount(store, uuid) >= RowCount(store, uuid)
    ensures GetBulkStatus(store, uuid) == FinishedSuccessfully <==>
              && RowCount(store, uuid) > 0
              && RowCount(store, uuid) == GetOperationCount(store, uuid)
              && forall o :: o in store.operations && o.bulkUuid == uuid ==> o.status == Complete
  {
    AllCompleteIffCountsEqual(store.operations, uuid);
  }

  /**
   * In the same consistent bulk, IN_PROGRESS means some scheduled operation
   * has no row yet and not every scheduled one is complete.
   */
  lemma InProgressMeansRowsMissing(store: Store, uuid: Uuid)
    requires GetOperationCount(store, uuid) >= RowCount(store, uuid)
    ensures GetBulkStatus(store, uuid) == InProgress <==>
              0 < RowCount(store, uuid) < GetOperationCount(store, uuid)
  {
  }

  /** A bulk of three scheduled operations with no rows yet has not started. */
  lemma ScenarioNoRows()
    ensures GetBulkStatus(Store([], [Bulk(1, "b", 7, "", 3, 0)]), "b") == NotStarted
  {
  }

  /**
   * Three scheduled operations, two OPEN rows and one COMPLETE row: every
   * scheduled operation has a row, so the bulk reads as finished with failure,
   * although no operation failed.
   */
  lemma ScenarioOpenRowsReadAsFailure()
    ensures GetBulkStatus(
              Store([Operation(1, "b", "t", Open, None, ""),
                     Operation(2, "b", "t", Open, None, ""),
                     Operation(3, "b", "t", Complete, None, "")],
                    [Bulk(1, "b", 7, "", 3, 0)]),
              "b") == FinishedWithFailure
  {
  }

  /** Five scheduled operations, three COMPLETE rows: still in progress. */
  lemma ScenarioRowsMissing()
    ensures GetBulkStatus(
              Store([Operation(1, "b", "t", Complete, None, ""),
                     Operation(2, "b", "t", Complete, None, ""),
                     Operation(3, "b", "t", Complete, None, "")],
                    [Bulk(1, "b", 7, "", 5, 0)]),
              "b") == InProgress
  {
  }

  /** Two scheduled operations, two COMPLETE rows: finished successfully. */
  lemma ScenarioAllComplete()
    ensures GetBulkStatus(
              Store([Operation(1, "b", "t", Complete, None, ""),
                     Operation(2, "b", "t", Complete, None, "")],
                    [Bulk(1, "b", 7, "", 2, 0)]),
              "b") == FinishedSuccessfully
  {
  }
}
