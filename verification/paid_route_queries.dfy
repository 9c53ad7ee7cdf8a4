/**
 * store/sqlc/paid_routes.sql.go: the paid_routes table and the statements
 * sqlc generated for it, as a table of rows the statements read and update.
 * Ids come from a sequence; the short_code column is taken to be unique (the
 * schema itself is not part of this model).  A database failure is the
 * `fault` argument; a missing row on a :one query is pgx.ErrNoRows.
 */
module PaidRouteQueries {
  import opened Wrappers
  import opened Errors
  import opened Tables

  const Int32Max: int := 0x7FFF_FFFF
  type Int32 = x: int | -0x8000_0000 <= x <= 0x7FFF_FFFF

  /** Go's zero time.Time, 0001-01-01 00:00:00 UTC, in seconds from the Unix epoch. */
  const ZeroTime: int := -62135596800

  /** pgtype.Timestamptz and pgtype.Text: None is SQL NULL (Valid == false). */
  type NullTime = Option<int>
  type NullText = Option<string>

  datatype Row = Row(
    id: nat,
    shortCode: string,
    targetUrl: string,
    httpMethod: string,
    price: Int32,
    isTest: bool,
    userId: nat,
    isEnabled: bool,
    attemptCount: Int32,
    paymentCount: Int32,
    accessCount: Int32,
    createdAt: int,
    updatedAt: int,
    deletedAt: NullTime,
    routeType: string,
    credits: Int32,
    resourceType: string,
    originalFilename: NullText,
    coverUrl: NullText,
    title: NullText,
    description: NullText)

  datatype CreateParams = CreateParams(
    shortCode: string,
    targetUrl: string,
    httpMethod: string,
    price: Int32,
    isTest: bool,
    userId: nat,
    isEnabled: bool,
    attemptCount: Int32,
    paymentCount: Int32,
    accessCount: Int32,
    createdAt: int,
    updatedAt: int,
    routeType: string,
    credits: Int32,
    resourceType: string,
    originalFilename: NullText,
    coverUrl: NullText,
    title: NullText,
    description: NullText)

  /** The three counter columns. */
  datatype Counter = Attempt | Payment | Access

  function CounterOf(r: Row, c: Counter): Int32
  {
    match c
    case Attempt => r.attemptCount
    case Payment => r.paymentCount
    case Access => r.accessCount
  }

  predicate Live(r: Row)
  {
    r.deletedAt.None?
  }

  /** A :one query: the first matching row, pgx.ErrNoRows when none matches. */
  function QueryOne(rows: seq<Row>, p: Row -> bool, fault: Option<Error>): (r: Result<Row, Error>)
    ensures fault.Some? ==> r == Err(fault.value)
    ensures fault.None? && r.Ok? ==> r.value in rows && p(r.value)
    ensures fault.None? ==> (r == Err(Sentinel(PgxNoRows)) <==> forall i :: 0 <= i < |rows| ==> !p(rows[i]))
  {
    if fault.Some? then Err(fault.value)
    else match FirstWhere(rows, p)
      case None => Err(Sentinel(PgxNoRows))
      case Some(row) => Ok(row)
  }

  /** The row as the UPDATE ... SET counter = counter + 1, updated_at = $2 leaves it. */
  function Bumped(r: Row, c: Counter, updatedAt: int): Row
    requires CounterOf(r, c) < Int32Max
  {
    match c
    case Attempt => r.(attemptCount := r.attemptCount + 1, updatedAt := updatedAt)
    case Payment => r.(paymentCount := r.paymentCount + 1, updatedAt := updatedAt)
    case Access => r.(accessCount := r.accessCount + 1, updatedAt := updatedAt)
  }

  predicate Targets(r: Row, code: string)
  {
    r.shortCode == code && Live(r)
  }

  /** Some target row's counter is at the int32 maximum: PostgreSQL reports "integer out of range". */
  predicate WouldOverflow(rows: seq<Row>, code: string, c: Counter)
  {
    exists i :: 0 <= i < |rows| && Targets(rows[i], code) && CounterOf(rows[i], c) == Int32Max
  }

  /** The increment statements over the whole table. */
  function IncrementAll(rows: seq<Row>, code: string, c: Counter, updatedAt: int): (r: seq<Row>)
    requires !WouldOverflow(rows, code, c)
    ensures |r| == |rows|
    ensures forall i :: 0 <= i < |rows| ==>
              r[i] == if Targets(rows[i], code) then Bumped(rows[i], c, updatedAt) else rows[i]
  {
    if rows == [] then []
    else
      var head := if Targets(rows[0], code) then Bumped(rows[0], c, updatedAt) else rows[0];
      [head] + IncrementAll(rows[1..], code, c, updatedAt)
  }

  /**
   * An increment adds exactly one to its own counter of the live rows with
   * that code, sets their updated_at, and changes no other column of any row.
   */
  lemma IncrementTouchesOnlyItsCounter(rows: seq<Row>, code: string, c: Counter, updatedAt: int, i: nat)
    requires !WouldOverflow(rows, code, c) && i < |rows|
    ensures var before, after := rows[i], IncrementAll(rows, code, c, updatedAt)[i];
            (Targets(before, code) ==> CounterOf(after, c) == CounterOf(before, c) + 1 && after.updatedAt == updatedAt)
            && (!Targets(before, code) ==> after == before)
            && (forall other :: other != c ==> CounterOf(after, other) == CounterOf(before, other))
            && after.(attemptCount := 0, paymentCount := 0, accessCount := 0, updatedAt := 0)
               == before.(attemptCount := 0, paymentCount := 0, accessCount := 0, updatedAt := 0)
  {
  }

  /** The soft delete over the whole table. */
  function SoftDeleteAll(rows: seq<Row>, id: nat, userId: nat, deletedAt: NullTime): (r: seq<Row>)
    ensures |r| == |rows|
    ensures forall i :: 0 <= i < |rows| ==>
              r[i] == if rows[i].id == id && rows[i].userId == userId && Live(rows[i])
                      then rows[i].(deletedAt := deletedAt) else rows[i]
  {
    if rows == [] then []
    else
      var head := if rows[0].id == id && rows[0].userId == userId && Live(rows[0])
                  then rows[0].(deletedAt := deletedAt) else rows[0];
      [head] + SoftDeleteAll(rows[1..], id, userId, deletedAt)
  }

  /** Deleting twice with a real timestamp is the same as deleting once. */
  lemma {:induction false} SoftDeleteIdempotent(rows: seq<Row>, id: nat, userId: nat, t: int, t': int)
    ensures var once := SoftDeleteAll(rows, id, userId, Some(t));
            SoftDeleteAll(once, id, userId, Some(t')) == once
  {
    var once := SoftDeleteAll(rows, id, userId, Some(t));
    var twice := SoftDeleteAll(once, id, userId, Some(t'));
    assert |twice| == |once|;
    forall i | 0 <= i < |once| ensures twice[i] == once[i] {
    }
  }

  /** Passing a NULL timestamp leaves every row as it was: such a delete deletes nothing. */
  lemma {:induction false} SoftDeleteWithNullIsNoOp(rows: seq<Row>, id: nat, userId: nat)
    ensures SoftDeleteAll(rows, id, userId, None) == rows
  {
    var r := SoftDeleteAll(rows, id, userId, None);
    forall i | 0 <= i < |rows| ensures r[i] == rows[i] {
    }
  }

  /** A delete that names no live row of that owner (a missing id, or another owner's route) changes nothing. */
  lemma {:induction false} SoftDeleteOfUnownedIsNoOp(rows: seq<Row>, id: nat, userId: nat, deletedAt: NullTime)
    requires forall i :: 0 <= i < |rows| ==> !(rows[i].id == id && rows[i].userId == userId && Live(rows[i]))
    ensures SoftDeleteAll(rows, id, userId, deletedAt) == rows
  {
    var r := SoftDeleteAll(rows, id, userId, deletedAt);
    forall i | 0 <= i < |rows| ensures r[i] == rows[i] {
    }
  }

  // ---------------------------------------------------------- ORDER BY

  function CreatedAt(r: Row): int { r.createdAt }

  /** ORDER BY created_at DESC (ties keep the table's order). */
  function OrderByCreatedDesc(s: seq<Row>): seq<Row>
  {
    SortDesc(s, CreatedAt)
  }

  /** The rows of a user that are not soft-deleted, in table order. */
  function LiveRowsOf(rows: seq<Row>, userId: nat): (r: seq<Row>)
    ensures forall x :: x in r <==> x in rows && x.userId == userId && Live(x)
  {
    Filter(rows, (x: Row) => x.userId == userId && Live(x))
  }

  // -------------------------------------------------------------- table

  /** Ids grow with insertion order, stay below the sequence, and short codes are unique. */
  ghost predicate ValidRows(rows: seq<Row>, nextId: nat)
  {
    nextId > 0
    && (forall i, j :: 0 <= i < j < |rows| ==> rows[i].id < rows[j].id)
    && (forall i :: 0 <= i < |rows| ==> 0 < rows[i].id < nextId)
    && (forall i, j :: 0 <= i < j < |rows| ==> rows[i].shortCode != rows[j].shortCode)
  }

  /** Two versions of the table with the same ids and codes, row by row. */
  ghost predicate SameKeys(a: seq<Row>, b: seq<Row>)
  {
    |a| == |b| && forall i :: 0 <= i < |a| ==> a[i].id == b[i].id && a[i].shortCode == b[i].shortCode
  }

  lemma KeysKeepValidity(a: seq<Row>, b: seq<Row>, nextId: nat)
    requires ValidRows(a, nextId) && SameKeys(a, b)
    ensures ValidRows(b, nextId)
  {
  }

  lemma IncrementKeepsKeys(rows: seq<Row>, code: string, c: Counter, updatedAt: int)
    requires !WouldOverflow(rows, code, c)
    ensures SameKeys(rows, IncrementAll(rows, code, c, updatedAt))
  {
    var r := IncrementAll(rows, code, c, updatedAt);
    forall i | 0 <= i < |rows| ensures r[i].id == rows[i].id && r[i].shortCode == rows[i].shortCode {
    }
  }

  lemma SoftDeleteKeepsKeys(rows: seq<Row>, id: nat, userId: nat, deletedAt: NullTime)
    ensures SameKeys(rows, SoftDeleteAll(rows, id, userId, deletedAt))
  {
  }

  class Queries {
    var rows: seq<Row>
    var nextId: nat

    ghost predicate Valid()
      reads this
    {
      ValidRows(rows, nextId)
    }

    constructor()
      ensures Valid() && rows == [] && nextId == 1
    {
      rows := [];
      nextId := 1;
    }

    /** CheckShortCodeExists: any row with the code, whether enabled, disabled or deleted. */
    function CheckShortCodeExists(code: string, fault: Option<Error>): (r: Result<bool, Error>)
      reads this
      ensures fault.Some? ==> r == Err(fault.value)
      ensures fault.None? ==> r.Ok? && (r.value <==> exists i :: 0 <= i < |rows| && rows[i].shortCode == code)
    {
      if fault.Some? then Err(fault.value)
      else Ok(FirstWhere(rows, (x: Row) => x.shortCode == code).Some?)
    }

    /** GetEnabledPaidRouteByShortCode. */
    function GetEnabledByShortCode(code: string, fault: Option<Error>): (r: Result<Row, Error>)
      reads this
      ensures fault.None? && r.Ok? ==>
                r.value in rows && r.value.shortCode == code && r.value.isEnabled && Live(r.value)
      ensures fault.None? ==>
                (r == Err(Sentinel(PgxNoRows)) <==>
                 forall i :: 0 <= i < |rows| ==> !(rows[i].shortCode == code && rows[i].isEnabled && Live(rows[i])))
      ensures fault.Some? ==> r == Err(fault.value)
    {
      QueryOne(rows, (x: Row) => x.shortCode == code && x.isEnabled && Live(x), fault)
    }

    /** GetPaidRouteByID. */
    function GetById(id: nat, fault: Option<Error>): (r: Result<Row, Error>)
      reads this
      ensures fault.None? && r.Ok? ==> r.value in rows && r.value.id == id && Live(r.value)
      ensures fault.None? ==>
                (r == Err(Sentinel(PgxNoRows)) <==> forall i :: 0 <= i < |rows| ==> !(rows[i].id == id && Live(rows[i])))
      ensures fault.Some? ==> r == Err(fault.value)
    {
      QueryOne(rows, (x: Row) => x.id == id && Live(x), fault)
    }

    /** GetPaidRouteByShortCode: disabled rows are found, deleted rows are not. */
    function GetByShortCode(code: string, fault: Option<Error>): (r: Result<Row, Error>)
      reads this
      ensures fault.None? && r.Ok? ==> r.value in rows && r.value.shortCode == code && Live(r.value)
      ensures fault.None? ==>
                (r == Err(Sentinel(PgxNoRows)) <==> forall i :: 0 <= i < |rows| ==> !Targets(rows[i], code))
      ensures fault.Some? ==> r == Err(fault.value)
    {
      QueryOne(rows, (x: Row) => Targets(x, code), fault)
    }

    /** CreatePaidRoute: INSERT ... RETURNING the new row. */
    method CreatePaidRoute(p: CreateParams, fault: Option<Error>) returns (r: Result<Row, Error>)
      requires Valid()
      modifies this
      ensures Valid()
      ensures fault.Some? ==> r == Err(fault.value) && rows == old(rows) && nextId == old(nextId)
      ensures fault.None? && (exists i :: 0 <= i < |old(rows)| && old(rows)[i].shortCode == p.shortCode) ==>
                r.Err? && rows == old(rows) && nextId == old(nextId)
      ensures r.Ok? ==>
                r.value == RowOf(old(nextId), p) && rows == old(rows) + [r.value] && nextId == old(nextId) + 1
      ensures r.Err? ==> rows == old(rows) && nextId == old(nextId)
      ensures fault.None? && (forall i :: 0 <= i < |old(rows)| ==> old(rows)[i].shortCode != p.shortCode) ==> r.Ok?
    {
      if fault.Some? {
        return Err(fault.value);
      }
      var taken := CheckShortCodeExists(p.shortCode, None);
      if taken.value {
        return Err(Message("duplicate key value violates unique constraint"));
      }
      var row := RowOf(nextId, p);
      rows := rows + [row];
      nextId := nextId + 1;
      return Ok(row);
    }

    /** IncrementAttemptCount, IncrementPaymentCount and IncrementAccessCount. */
    method Increment(code: string, c: Counter, updatedAt: int, fault: Option<Error>) returns (err: Option<Error>)
      requires Valid()
      modifies this
      ensures Valid() && nextId == old(nextId)
      ensures fault.Some? ==> err == fault && rows == old(rows)
      ensures fault.None? && WouldOverflow(old(rows), code, c) ==>
                err == Some(Message("integer out of range")) && rows == old(rows)
      ensures fault.None? && !WouldOverflow(old(rows), code, c) ==>
                err.None? && rows == IncrementAll(old(rows), code, c, updatedAt)
    {
      if fault.Some? {
        return fault;
      }
      if WouldOverflowAt(code, c) {
        return Some(Message("integer out of range"));
      }
      IncrementKeepsKeys(rows, code, c, updatedAt);
      KeysKeepValidity(rows, IncrementAll(rows, code, c, updatedAt), nextId);
      rows := IncrementAll(rows, code, c, updatedAt);
      return None;
    }

    predicate WouldOverflowAt(code: string, c: Counter)
      reads this
      ensures WouldOverflowAt(code, c) <==> WouldOverflow(rows, code, c)
    {
      FirstWhere(rows, (x: Row) => Targets(x, code) && CounterOf(x, c) == Int32Max).Some?
    }

    /** DeletePaidRoute: UPDATE ... SET deleted_at = $3 WHERE id, user_id match and not yet deleted. */
    method DeletePaidRoute(id: nat, userId: nat, deletedAt: NullTime, fault: Option<Error>) returns (err: Option<Error>)
      requires Valid()
      modifies this
      ensures Valid() && nextId == old(nextId)
      ensures fault.Some? ==> err == fault && rows == old(rows)
      ensures fault.None? ==> err.None? && rows == SoftDeleteAll(old(rows), id, userId, deletedAt)
    {
      if fault.Some? {
        return fault;
      }
      SoftDeleteKeepsKeys(rows, id, userId, deletedAt);
      KeysKeepValidity(rows, SoftDeleteAll(rows, id, userId, deletedAt), nextId);
      rows := SoftDeleteAll(rows, id, userId, deletedAt);
      return None;
    }

    /**
     * ListUserPaidRoutes: the rows the database returns, appended one by one.
     * `scanFault` is the first row index whose Scan fails, `iterFault` what
     * rows.Err reports after the last row.
     */
    method ListUserPaidRoutes(userId: nat, queryFault: Option<Error>, scanFault: Option<(nat, Error)>,
                              iterFault: Option<Error>) returns (r: Result<seq<Row>, Error>)
      ensures queryFault.Some? ==> r == Err(queryFault.value)
      ensures queryFault.None? && scanFault.Some? && scanFault.value.0 < |OrderByCreatedDesc(LiveRowsOf(rows, userId))| ==>
                r == Err(scanFault.value.1)
      ensures r.Ok? ==> r.value == OrderByCreatedDesc(LiveRowsOf(rows, userId)) && iterFault.None?
      ensures (queryFault.None? && iterFault.None?
               && (scanFault.None? || scanFault.value.0 >= |OrderByCreatedDesc(LiveRowsOf(rows, userId))|)) ==> r.Ok?
    {
      if queryFault.Some? {
        return Err(queryFault.value);
      }
      var cursor := OrderByCreatedDesc(LiveRowsOf(rows, userId));
      var items: seq<Row> := [];
      var i := 0;
      while i < |cursor|
        invariant 0 <= i <= |cursor|
        invariant items == cursor[..i]
        invariant scanFault.Some? ==> scanFault.value.0 >= i
      {
        if scanFault.Some? && scanFault.value.0 == i {
          return Err(scanFault.value.1);
        }
        items := items + [cursor[i]];
        i := i + 1;
      }
      if iterFault.Some? {
        return Err(iterFault.value);
      }
      assert items == cursor;
      return Ok(items);
    }
  }

  /** The row INSERT creates from the parameters, deleted_at NULL. */
  function RowOf(id: nat, p: CreateParams): (r: Row)
    ensures r.id == id && r.shortCode == p.shortCode && Live(r)
  {
    Row(id, p.shortCode, p.targetUrl, p.httpMethod, p.price, p.isTest, p.userId, p.isEnabled,
        p.attemptCount, p.paymentCount, p.accessCount, p.createdAt, p.updatedAt, None,
        p.routeType, p.credits, p.resourceType, p.originalFilename, p.coverUrl, p.title, p.description)
  }

  /** A user's listing holds exactly their live rows, newest first. */
  lemma ListingIsOwnedLiveRowsNewestFirst(rows: seq<Row>, userId: nat)
    ensures var listing := OrderByCreatedDesc(LiveRowsOf(rows, userId));
            SortedDesc(listing, CreatedAt)
            && forall x :: x in listing <==> x in rows && x.userId == userId && Live(x)
  {
    SortDescSorted(LiveRowsOf(rows, userId), CreatedAt);
  }
}
