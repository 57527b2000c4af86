/**
 * The operation-collection queries of the bulk status service: a collection
 * filtered by `bulk_uuid` and optionally by a set of statuses, read either as
 * its items (`getItems`) or as its size (`getSize`, a separate COUNT query).
 */
module OperationQueries {
  import opened BulkTypes

  /**
   * The filters the service chains on an operation collection:
   * `bulk_uuid = bulkUuid` and, when `statuses` is present, `status IN statuses`.
   */
  datatype Filter = Filter(bulkUuid: Uuid, statuses: Option<set<OperationStatus>>)

  predicate Matches(o: Operation, f: Filter)
  {
    o.bulkUuid == f.bulkUuid && (f.statuses.Some? ==> o.status in f.statuses.value)
  }

  /** The filter that keeps every row of one bulk. */
  function ByBulk(uuid: Uuid): (f: Filter)
    ensures forall o: Operation :: Matches(o, f) <==> o.bulkUuid == uuid
  {
    Filter(uuid, None)
  }

  /** The filter that keeps the rows of one bulk whose status is in `statuses`. */
  function ByBulkAndStatuses(uuid: Uuid, statuses: set<OperationStatus>): (f: Filter)
    ensures forall o: Operation :: Matches(o, f) <==> o.bulkUuid == uuid && o.status in statuses
  {
    Filter(uuid, Some(statuses))
  }

  /**
   * The items of the filtered collection, in storage order: exactly the
   * matching rows, each as often as it is stored.
   */
  function Select(operations: seq<Operation>, f: Filter): (r: seq<Operation>)
    ensures |r| <= |operations|
    ensures forall o :: o in r ==> Matches(o, f)
    ensures forall o :: multiset(r)[o] == if Matches(o, f) then multiset(operations)[o] else 0
  {
    if operations == [] then []
    else
      assert operations == [operations[0]] + operations[1..];
      var rest := Select(operations[1..], f);
      if Matches(operations[0], f) then [operations[0]] + rest else rest
  }

  /** The size of the filtered collection, counted row by row. */
  function Count(operations: seq<Operation>, f: Filter): (n: nat)
    ensures n <= |operations|
  {
    if operations == [] then 0
    else (if Matches(operations[0], f) then 1 else 0) + Count(operations[1..], f)
  }

  /** The COUNT query and the item query of the same filter agree. */
  lemma {:induction false} CountIsSelectSize(operations: seq<Operation>, f: Filter)
    ensures Count(operations, f) == |Select(operations, f)|
  {
    if operations != [] {
      CountIsSelectSize(operations[1..], f);
    }
  }

  /** A filter no row matches selects nothing and counts zero. */
  lemma {:induction false} CountZeroIffNoMatch(operations: seq<Operation>, f: Filter)
    ensures Count(operations, f) == 0 <==> forall o :: o in operations ==> !Matches(o, f)
  {
    if operations != [] {
      CountZeroIffNoMatch(operations[1..], f);
      assert forall o :: o in operations <==> o == operations[0] || o in operations[1..];
    }
  }

  /** Narrowing a bulk filter by statuses never counts more rows. */
  lemma {:induction false} CountStatusesAtMostBulkRows(
    operations: seq<Operation>, uuid: Uuid, statuses: set<OperationStatus>)
    ensures Count(operations, ByBulkAndStatuses(uuid, statuses)) <= Count(operations, ByBulk(uuid))
  {
    if operations != [] {
      CountStatusesAtMostBulkRows(operations[1..], uuid, statuses);
    }
  }

  /** Counting by a union of two disjoint status sets adds the two counts. */
  lemma {:induction false} CountDisjointUnion(
    operations: seq<Operation>, uuid: Uuid, s: set<OperationStatus>, t: set<OperationStatus>)
    requires s !! t
    ensures Count(operations, ByBulkAndStatuses(uuid, s + t))
         == Count(operations, ByBulkAndStatuses(uuid, s)) + Count(operations, ByBulkAndStatuses(uuid, t))
  {
    if operations != [] {
      CountDisjointUnion(operations[1..], uuid, s, t);
    }
  }

  /** Filtering by every status is the same as not filtering by status. */
  lemma {:induction false} CountAllStatusesIsBulkRows(operations: seq<Operation>, uuid: Uuid)
    ensures Count(operations, ByBulkAndStatuses(uuid, AllOperationStatuses)) == Count(operations, ByBulk(uuid))
  {
    if operations != [] {
      CountAllStatusesIsBulkRows(operations[1..], uuid);
      match operations[0].status
      case Open =>
      case Complete =>
      case RetriablyFailed =>
      case NotRetriablyFailed =>
    }
  }

  /**
   * The statuses `getFailedOperationsByBulkId` filters by: the one given
   * failure type, or both failure statuses when none is given. `None` stands
   * for every value PHP reads as false (null, 0, the empty string).
   */
  function FailureCodes(failureType: Option<OperationStatus>): (codes: set<OperationStatus>)
    ensures failureType.Some? ==> codes == {failureType.value}
    ensures failureType.None? ==> Open !in codes && Complete !in codes && |codes| == 2
  {
    if failureType.Some? then {failureType.value} else {RetriablyFailed, NotRetriablyFailed}
  }

  /**
   * getFailedOperationsByBulkId: the operations of the bulk whose status is one
   * of the failure codes, in storage order; empty for an unknown bulk.
   */
  function GetFailedOperationsByBulkId(store: Store, bulkUuid: Uuid, failureType: Option<OperationStatus>)
    : (r: seq<Operation>)
    ensures forall o ::
              multiset(r)[o] == if o.bulkUuid == bulkUuid && o.status in FailureCodes(failureType)
                                then multiset(store.operations)[o] else 0
    ensures forall o :: o in r ==> o in store.operations && o.bulkUuid == bulkUuid
    ensures failureType.None? ==> forall o :: o in r ==> o.status == RetriablyFailed || o.status == NotRetriablyFailed
    ensures NoOperationsOf(store.operations, bulkUuid) ==> r == []
  {
    Select(store.operations, ByBulkAndStatuses(bulkUuid, FailureCodes(failureType)))
  }

  /**
   * getOperationsCountByBulkIdAndStatus: the number of operations whose bulk
   * uuid and status both match; zero for an unknown bulk.
   */
  function GetOperationsCountByBulkIdAndStatus(store: Store, bulkUuid: Uuid, status: OperationStatus)
    : (n: nat)
    ensures n == |Select(store.operations, ByBulkAndStatuses(bulkUuid, {status}))|
    ensures n <= Count(store.operations, ByBulk(bulkUuid))
    ensures NoOperationsOf(store.operations, bulkUuid) ==> n == 0
  {
    var f := ByBulkAndStatuses(bulkUuid, {status});
    CountIsSelectSize(store.operations, f);
    CountStatusesAtMostBulkRows(store.operations, bulkUuid, {status});
    CountZeroIffNoMatch(store.operations, f);
    Count(store.operations, f)
  }

  /**
   * The two failure counts add up to the size of the default failed-operations
   * list.
   */
  lemma FailedCountsAddUp(store: Store, bulkUuid: Uuid)
    ensures GetOperationsCountByBulkIdAndStatus(store, bulkUuid, RetriablyFailed)
          + GetOperationsCountByBulkIdAndStatus(store, bulkUuid, NotRetriablyFailed)
         == |GetFailedOperationsByBulkId(store, bulkUuid, None)|
  {
    var ops := store.operations;
    CountDisjointUnion(ops, bulkUuid, {RetriablyFailed}, {NotRetriablyFailed});
    assert {RetriablyFailed} + {NotRetriablyFailed} == FailureCodes(None);
    CountIsSelectSize(ops, ByBulkAndStatuses(bulkUuid, FailureCodes(None)));
  }

  /** The per-status counts of a bulk partition its rows. */
  lemma StatusCountsPartitionRows(store: Store, bulkUuid: Uuid)
    ensures GetOperationsCountByBulkIdAndStatus(store, bulkUuid, Open)
          + GetOperationsCountByBulkIdAndStatus(store, bulkUuid, Complete)
          + GetOperationsCountByBulkIdAndStatus(store, bulkUuid, RetriablyFailed)
          + GetOperationsCountByBulkIdAndStatus(store, bulkUuid, NotRetriablyFailed)
         == Count(store.operations, ByBulk(bulkUuid))
  {
    var ops := store.operations;
    CountDisjointUnion(ops, bulkUuid, {Open}, {Complete});
    CountDisjointUnion(ops, bulkUuid, {Open, Complete}, {RetriablyFailed});
    CountDisjointUnion(ops, bulkUuid, {Open, Complete, RetriablyFailed}, {NotRetriablyFailed});
    assert {Open} + {Complete} == {Open, Complete};
    assert {Open, Complete} + {RetriablyFailed} == {Open, Complete, RetriablyFailed};
    assert {Open, Complete, RetriablyFailed} + {NotRetriablyFailed} == AllOperationStatuses;
    CountAllStatusesIsBulkRows(ops, bulkUuid);
  }
}
