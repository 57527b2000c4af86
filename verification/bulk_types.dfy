/**
 * The records of the asynchronous-operations status store, as the bulk status
 * service sees them: the `magento_bulk` table (one row per bulk of work) and the
 * `magento_operation` table (one row per operation of a bulk), plus the status
 * enumerations of both levels.
 */
module BulkTypes {

  datatype Option<+T> = None | Some(value: T)

  datatype Result<+T, +E> = Success(value: T) | Failure(error: E)

  /** Bulks and operations are keyed by an opaque uuid string. */
  type Uuid = string

  /** Status of one operation; the four values are exhaustive and exclusive. */
  datatype OperationStatus = Open | Complete | RetriablyFailed | NotRetriablyFailed

  /** Every operation status: a filter by this set lets every row through. */
  const AllOperationStatuses: set<OperationStatus> :=
    {Open, Complete, RetriablyFailed, NotRetriablyFailed}

  /** Aggregate status of a bulk; derived on demand, never stored. */
  datatype BulkStatus = NotStarted | InProgress | FinishedSuccessfully | FinishedWithFailure

  /** One row of the operation table. */
  datatype Operation = Operation(
    id: nat,
    bulkUuid: Uuid,
    topicName: string,
    status: OperationStatus,
    errorCode: Option<int>,
    resultMessage: string)

  /**
   * One row of the bulk table. `id` is the bulk id a loaded status object
   * reports; a stored row always supplies one, so an object reports none
   * exactly when no row was loaded. `operationCount` is the number of
   * operations scheduled when the bulk was created.
   */
  datatype Bulk = Bulk(
    id: nat,
    uuid: Uuid,
    userId: int,
    description: string,
    operationCount: int,
    startTime: int)

  /** One snapshot of both tables, in storage order. */
  datatype Store = Store(operations: seq<Operation>, bulks: seq<Bulk>)

  /** The bulk table's uuid column is a unique key. */
  predicate UniqueBulkUuids(bulks: seq<Bulk>)
  {
    forall i, j :: 0 <= i < j < |bulks| ==> bulks[i].uuid != bulks[j].uuid
  }

  /** True when no operation row references the bulk `uuid`. */
  predicate NoOperationsOf(operations: seq<Operation>, uuid: Uuid)
  {
    forall o :: o in operations ==> o.bulkUuid != uuid
  }

  /** True when no row of the bulk table carries `uuid`. */
  predicate NoBulkRow(bulks: seq<Bulk>, uuid: Uuid)
  {
    forall b :: b in bulks ==> b.uuid != uuid
  }
}
