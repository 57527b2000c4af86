/**
 * getBulkDetailedStatus and getBulkShortStatus: create an empty status object,
 * load the bulk row into it, fail when no row was loaded, and otherwise attach
 * every operation of the bulk with `setOperationsList`.
 */
module BulkStatusObjects {
  import opened BulkTypes
  import opened OperationQueries
  import opened BulkStatusCalculation

  /** Which factory created the object: the detailed or the short status shape. */
  datatype StatusView = Detailed | Short

  /** The not-found error; it carries the requested uuid. */
  datatype NoSuchEntity = NoSuchEntity(bulkUuid: Uuid)

  /** A bulk status object: the bulk's summary fields and its operation list. */
  class BulkStatusObject {
    const view: StatusView
    var bulkId: Option<nat>
    var bulkUuid: Uuid
    var userId: int
    var description: string
    var operationCount: int
    var startTime: int
    var operationsList: seq<Operation>

    /** True when the summary fields are those of `b`. */
    predicate HoldsRow(b: Bulk)
      reads this
    {
      && bulkId == Some(b.id)
      && bulkUuid == b.uuid
      && userId == b.userId
      && description == b.description
      && operationCount == b.operationCount
      && startTime == b.startTime
    }

    /** A fresh object from the factory: nothing loaded, no id. */
    constructor (view: StatusView)
      ensures this.view == view && bulkId == None && operationsList == []
      ensures bulkUuid == "" && userId == 0 && description == ""
      ensures operationCount == 0 && startTime == 0
    {
      this.view := view;
      bulkId := None;
      bulkUuid := "";
      userId := 0;
      description := "";
      operationCount := 0;
      startTime := 0;
      operationsList := [];
    }

    /** Copies the loaded row into the summary fields; with no row, nothing changes. */
    method Load(row: Option<Bulk>)
      modifies this
      ensures row.Some? ==> HoldsRow(row.value)
      ensures row.None? ==> bulkId == old(bulkId)
      ensures row.None? ==> bulkUuid == old(bulkUuid) && userId == old(userId) && description == old(description)
      ensures row.None? ==> operationCount == old(operationCount) && startTime == old(startTime)
      ensures operationsList == old(operationsList)
    {
      if row.Some? {
        var b := row.value;
        bulkId, bulkUuid, userId, description := Some(b.id), b.uuid, b.userId, b.description;
        operationCount, startTime := b.operationCount, b.startTime;
      }
    }

    /** setOperationsList: replaces the operation list and nothing else. */
    method SetOperationsList(operations: seq<Operation>)
      modifies this`operationsList
      ensures operationsList == operations
    {
      operationsList := operations;
    }
  }

  /**
   * The steps both status loads share: create, load by uuid, check the id,
   * attach the bulk's operations.
   */
  method LoadBulkStatus(store: Store, uuid: Uuid, view: StatusView)
    returns (r: Result<BulkStatusObject, NoSuchEntity>)
    ensures r.Failure? <==> NoBulkRow(store.bulks, uuid)
    ensures r.Failure? ==> r.error == NoSuchEntity(uuid)
    ensures r.Success? ==> fresh(r.value) && r.value.view == view
    ensures r.Success? ==> r.value.HoldsRow(FindBulk(store.bulks, uuid).value)
    ensures r.Success? ==> r.value.operationsList == Select(store.operations, ByBulk(uuid))
    ensures r.Success? ==> forall o :: multiset(r.value.operationsList)[o] ==
                                       if o.bulkUuid == uuid then multiset(store.operations)[o] else 0
  {
    var bulk := new BulkStatusObject(view);
    bulk.Load(FindBulk(store.bulks, uuid));
    if bulk.bulkId == None {
      return Failure(NoSuchEntity(uuid));
    }
    var operations := Select(store.operations, ByBulk(uuid));
    bulk.SetOperationsList(operations);
    return Success(bulk);
  }

  /** getBulkDetailedStatus: the bulk row and all of its operations, or not-found. */
  method GetBulkDetailedStatus(store: Store, uuid: Uuid) returns (r: Result<BulkStatusObject, NoSuchEntity>)
    ensures r.Failure? <==> NoBulkRow(store.bulks, uuid)
    ensures r.Failure? ==> r.error == NoSuchEntity(uuid)
    ensures r.Success? ==> fresh(r.value) && r.value.view == Detailed
    ensures r.Success? ==> r.value.HoldsRow(FindBulk(store.bulks, uuid).value)
    ensures r.Success? ==> forall o :: multiset(r.value.operationsList)[o] ==
                                       if o.bulkUuid == uuid then multiset(store.operations)[o] else 0
  {
    r := LoadBulkStatus(store, uuid, Detailed);
  }

  /** getBulkShortStatus: the same existence check and operation list, in the short shape. */
  method GetBulkShortStatus(store: Store, uuid: Uuid) returns (r: Result<BulkStatusObject, NoSuchEntity>)
    ensures r.Failure? <==> NoBulkRow(store.bulks, uuid)
    ensures r.Failure? ==> r.error == NoSuchEntity(uuid)
    ensures r.Success? ==> fresh(r.value) && r.value.view == Short
    ensures r.Success? ==> r.value.HoldsRow(FindBulk(store.bulks, uuid).value)
    ensures r.Success? ==> forall o :: multiset(r.value.operationsList)[o] ==
                                       if o.bulkUuid == uuid then multiset(store.operations)[o] else 0
  {
    r := LoadBulkStatus(store, uuid, Short);
  }
}
