/**
 * getBulksByUser: the bulk rows of one user, each annotated with a status
 * computed in the database, ordered first by the position of that status in a
 * fixed priority list (MySQL `FIELD`) and then by `start_time`.
 */
module BulkListing {
  import opened BulkTypes

  /**
   * A status value as the listing query compares it: the computed status
   * column mixes operation-level and bulk-level constants.
   */
  datatype StatusLabel = OperationLabel(op: OperationStatus) | BulkLabel(bulk: BulkStatus)

  /** The fixed priority list of the listing query: failures first, successes last. */
  const StatusPriority: seq<StatusLabel> := [
    OperationLabel(RetriablyFailed),
    OperationLabel(NotRetriablyFailed),
    BulkLabel(NotStarted),
    OperationLabel(Open),
    OperationLabel(Complete)
  ]

  /** Direction of the `start_time` order. */
  datatype Direction = Ascending | Descending

  /** A bulk row together with its computed `status` column. */
  datatype ListedBulk = ListedBulk(bulk: Bulk, status: StatusLabel)

  /**
   * MySQL `FIELD(x, l1, ..., ln)`: the 1-based position of the first `li`
   * equal to `x`, or 0 when `x` is not in the list.
   */
  function FieldPosition(x: StatusLabel, list: seq<StatusLabel>): (p: nat)
    ensures p <= |list|
    ensures p == 0 <==> x !in list
    ensures p > 0 ==> list[p - 1] == x && x !in list[..p - 1]
  {
    if list == [] then 0
    else if list[0] == x then 1
    else
      var p := FieldPosition(x, list[1..]);
      assert list[1..][..if p == 0 then 0 else p - 1] == list[1..if p == 0 then 1 else p];
      if p == 0 then 0 else p + 1
  }

  predicate StartTimeInOrder(t: int, u: int, dir: Direction)
  {
    if dir == Ascending then t <= u else t >= u
  }

  /**
   * `a` may be listed before `b`: its status comes earlier in `priority`, or
   * at the same position and its start time is in order with `b`'s.
   */
  predicate ListedBefore(a: ListedBulk, b: ListedBulk, priority: seq<StatusLabel>, dir: Direction)
  {
    var ra, rb := FieldPosition(a.status, priority), FieldPosition(b.status, priority);
    ra < rb || (ra == rb && StartTimeInOrder(a.bulk.startTime, b.bulk.startTime, dir))
  }

  predicate SortedForListing(s: seq<ListedBulk>, priority: seq<StatusLabel>, dir: Direction)
  {
    forall i, j :: 0 <= i < j < |s| ==> ListedBefore(s[i], s[j], priority, dir)
  }

  /** The user's rows in table order, each with its computed status. */
  function UserRows(bulks: seq<Bulk>, userId: int, status: Bulk -> StatusLabel): (r: seq<ListedBulk>)
    ensures forall e :: e in r ==> e.bulk.userId == userId && e.status == status(e.bulk)
    ensures forall e :: multiset(r)[e] ==
              if e.bulk.userId == userId && e.status == status(e.bulk) then multiset(bulks)[e.bulk] else 0
  {
    if bulks == [] then []
    else
      assert bulks == [bulks[0]] + bulks[1..];
      var rest := UserRows(bulks[1..], userId, status);
      if bulks[0].userId == userId then [ListedBulk(bulks[0], status(bulks[0]))] + rest else rest
  }

  lemma ListedBeforeTransitive(a: ListedBulk, b: ListedBulk, c: ListedBulk, priority: seq<StatusLabel>, dir: Direction)
    requires ListedBefore(a, b, priority, dir) && ListedBefore(b, c, priority, dir)
    ensures ListedBefore(a, c, priority, dir)
  {
  }

  lemma ListedBeforeTotal(a: ListedBulk, b: ListedBulk, priority: seq<StatusLabel>, dir: Direction)
    ensures ListedBefore(a, b, priority, dir) || ListedBefore(b, a, priority, dir)
  {
  }

  /** Puts `x` before the first element of `s` it may precede. */
  function Insert(x: ListedBulk, s: seq<ListedBulk>, priority: seq<StatusLabel>, dir: Direction)
    : (r: seq<ListedBulk>)
    ensures multiset(r) == multiset(s) + multiset{x}
  {
    if s == [] || ListedBefore(x, s[0], priority, dir) then [x] + s
    else
      assert s == [s[0]] + s[1..];
      [s[0]] + Insert(x, s[1..], priority, dir)
  }

  /** The head of a sorted sequence may precede everything its tail holds. */
  lemma HeadBeforeTail(s: seq<ListedBulk>, priority: seq<StatusLabel>, dir: Direction)
    requires SortedForListing(s, priority, dir) && s != []
    ensures forall e :: e in multiset(s[1..]) ==> ListedBefore(s[0], e, priority, dir)
  {
    forall e | e in multiset(s[1..]) ensures ListedBefore(s[0], e, priority, dir) {
      assert e in s[1..];
      var k :| 0 <= k < |s[1..]| && s[1..][k] == e;
      assert s[k + 1] == e;
    }
  }

  /** `x` put in front of a sorted `s` whose head it may precede keeps it sorted. */
  lemma PrependKeepsSorted(x: ListedBulk, s: seq<ListedBulk>, priority: seq<StatusLabel>, dir: Direction)
    requires SortedForListing(s, priority, dir)
    requires s != [] ==> ListedBefore(x, s[0], priority, dir)
    ensures SortedForListing([x] + s, priority, dir)
  {
    var r := [x] + s;
    forall i, j | 0 <= i < j < |r| ensures ListedBefore(r[i], r[j], priority, dir) {
      if i == 0 && j > 1 {
        ListedBeforeTransitive(x, s[0], s[j - 1], priority, dir);
      } else if i > 0 {
        assert r[i] == s[i - 1] && r[j] == s[j - 1];
      }
    }
  }

  /** A sorted `rest` headed by an element that may precede all of it stays sorted. */
  lemma ConsKeepsSorted(y: ListedBulk, rest: seq<ListedBulk>, priority: seq<StatusLabel>, dir: Direction)
    requires SortedForListing(rest, priority, dir)
    requires forall e :: e in multiset(rest) ==> ListedBefore(y, e, priority, dir)
    ensures SortedForListing([y] + rest, priority, dir)
  {
    var r := [y] + rest;
    forall i, j | 0 <= i < j < |r| ensures ListedBefore(r[i], r[j], priority, dir) {
      if i == 0 {
        assert rest[j - 1] in multiset(rest);
      } else {
        assert r[i] == rest[i - 1] && r[j] == rest[j - 1];
      }
    }
  }

  /** Inserting into a sorted sequence keeps it sorted. */
  lemma {:induction false} InsertKeepsSorted(
    x: ListedBulk, s: seq<ListedBulk>, priority: seq<StatusLabel>, dir: Direction)
    requires SortedForListing(s, priority, dir)
    ensures SortedForListing(Insert(x, s, priority, dir), priority, dir)
  {
    if s == [] || ListedBefore(x, s[0], priority, dir) {
      PrependKeepsSorted(x, s, priority, dir);
    } else {
      var rest := Insert(x, s[1..], priority, dir);
      assert SortedForListing(s[1..], priority, dir);
      InsertKeepsSorted(x, s[1..], priority, dir);
      ListedBeforeTotal(x, s[0], priority, dir);
      HeadBeforeTail(s, priority, dir);
      ConsKeepsSorted(s[0], rest, priority, dir);
    }
  }

  /** Insertion sort by the listing order. */
  function SortForListing(s: seq<ListedBulk>, priority: seq<StatusLabel>, dir: Direction)
    : (r: seq<ListedBulk>)
    ensures multiset(r) == multiset(s)
  {
    if s == [] then []
    else
      assert s == [s[0]] + s[1..];
      Insert(s[0], SortForListing(s[1..], priority, dir), priority, dir)
  }

  /** The insertion sort's result is in listing order. */
  lemma {:induction false} SortForListingIsSorted(s: seq<ListedBulk>, priority: seq<StatusLabel>, dir: Direction)
    ensures SortedForListing(SortForListing(s, priority, dir), priority, dir)
  {
    if s != [] {
      SortForListingIsSorted(s[1..], priority, dir);
      InsertKeepsSorted(s[0], SortForListing(s[1..], priority, dir), priority, dir);
    }
  }

  /**
   * getBulksByUser: exactly the user's bulk rows, each once per stored row and
   * annotated with its computed status, ordered by the status priority list
   * and then by start time. Rows equal in both keys may come in any order;
   * this model fixes one.
   */
  function GetBulksByUser(bulks: seq<Bulk>, userId: int, status: Bulk -> StatusLabel, dir: Direction)
    : (r: seq<ListedBulk>)
    ensures SortedForListing(r, StatusPriority, dir)
    ensures forall e :: e in r ==> e.bulk.userId == userId && e.status == status(e.bulk)
    ensures forall e :: multiset(r)[e] ==
              if e.bulk.userId == userId && e.status == status(e.bulk) then multiset(bulks)[e.bulk] else 0
  {
    var rows := UserRows(bulks, userId, status);
    var r := SortForListing(rows, StatusPriority, dir);
    SortForListingIsSorted(rows, StatusPriority, dir);
    assert forall e :: e in r ==> e in rows by {
      forall e | e in r ensures e in rows {
        assert e in multiset(r);
      }
    }
    r
  }

  /**
   * In a listing, a bulk whose computed status is not in the priority list
   * (position 0) comes before every bulk whose status is in it.
   */
  lemma UnlistedStatusesComeFirst(s: seq<ListedBulk>, dir: Direction, i: nat, j: nat)
    requires SortedForListing(s, StatusPriority, dir)
    requires i < |s| && j < |s|
    requires s[i].status !in StatusPriority && s[j].status in StatusPriority
    ensures i < j
  {
  }

  /** In a listing, a bulk computed as retriably failed comes before every bulk computed as complete. */
  lemma FailuresBeforeCompletions(s: seq<ListedBulk>, dir: Direction, i: nat, j: nat)
    requires SortedForListing(s, StatusPriority, dir)
    requires i < |s| && j < |s|
    requires s[i].status == OperationLabel(RetriablyFailed) && s[j].status == OperationLabel(Complete)
    ensures i < j
  {
    assert FieldPosition(s[i].status, StatusPriority) == 1;
    assert FieldPosition(s[j].status, StatusPriority) == 5 by {
      assert StatusPriority[4] == s[j].status;
      assert s[j].status !in StatusPriority[..4];
    }
  }

  /** In a listing, bulks whose statuses share a position are in start-time order. */
  lemma SamePositionOrderedByStartTime(s: seq<ListedBulk>, dir: Direction, i: nat, j: nat)
    requires SortedForListing(s, StatusPriority, dir)
    requires i < j < |s| && FieldPosition(s[i].status, StatusPriority) == FieldPosition(s[j].status, StatusPriority)
    ensures StartTimeInOrder(s[i].bulk.startTime, s[j].bulk.startTime, dir)
  {
    assert ListedBefore(s[i], s[j], StatusPriority, dir);
  }
}
