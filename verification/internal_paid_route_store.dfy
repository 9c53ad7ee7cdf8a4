/**
 * internal/store/paid_route_store.go: the older, gorm-backed paid-route
 * store.  models.PaidRoute embeds gorm.Model, whose DeletedAt column makes
 * gorm's Delete a soft delete and adds "deleted_at IS NULL" to every query,
 * count and update the store issues.  UpdateColumn writes only the column
 * it names, so the counter updates leave updated_at alone.  A database
 * failure is the `fault` argument; the clock is `now`.
 */
module InternalPaidRouteStore {
  import opened Wrappers
  import opened Errors
  import opened Tables
  import PaidRouteQueries

  /** models.PaidRoute with the columns of gorm.Model; prices and counters are int64. */
  datatype Route = Route(
    id: nat,
    createdAt: int,
    updatedAt: int,
    deletedAt: Option<int>,
    shortCode: string,
    targetUrl: string,
    httpMethod: string,
    price: int,
    isTest: bool,
    userId: nat,
    isEnabled: bool,
    attemptCount: int,
    paymentCount: int,
    accessCount: int)

  datatype Counter = Attempt | Payment | Access

  function CounterOf(r: Route, c: Counter): int
  {
    match c
    case Attempt => r.attemptCount
    case Payment => r.paymentCount
    case Access => r.accessCount
  }

  /** counter = counter + 1, and nothing else. */
  function Bump(c: Counter): Route -> Route
  {
    match c
    case Attempt => (r: Route) => r.(attemptCount := r.attemptCount + 1)
    case Payment => (r: Route) => r.(paymentCount := r.paymentCount + 1)
    case Access => (r: Route) => r.(accessCount := r.accessCount + 1)
  }

  predicate Live(r: Route)
  {
    r.deletedAt.None?
  }

  /** WHERE short_code = ? (and gorm's deleted_at IS NULL). */
  function WithCode(code: string): Route -> bool
  {
    (r: Route) => r.shortCode == code && Live(r)
  }

  /** WHERE short_code = ? AND is_enabled = true (and deleted_at IS NULL). */
  function EnabledWithCode(code: string): Route -> bool
  {
    (r: Route) => r.shortCode == code && r.isEnabled && Live(r)
  }

  /** WHERE id = ? AND user_id = ? (and deleted_at IS NULL). */
  function OwnedBy(id: nat, userId: nat): Route -> bool
  {
    (r: Route) => r.id == id && r.userId == userId && Live(r)
  }

  /** WHERE user_id = ? (and deleted_at IS NULL). */
  function OfUser(userId: nat): Route -> bool
  {
    (r: Route) => r.userId == userId && Live(r)
  }

  function CreatedAt(r: Route): int { r.createdAt }

  /** gorm's soft delete: deleted_at := now on the selected rows. */
  function SoftDelete(now: int): Route -> Route
  {
    (r: Route) => r.(deletedAt := Some(now))
  }

  /** An increment adds one to its own counter of the selected rows and changes nothing else, not even updated_at. */
  lemma BumpTouchesOnlyItsCounter(rows: seq<Route>, p: Route -> bool, c: Counter, i: nat)
    requires i < |rows|
    ensures var before, after := rows[i], UpdateWhere(rows, p, Bump(c))[i];
            (p(before) ==> CounterOf(after, c) == CounterOf(before, c) + 1)
            && (!p(before) ==> after == before)
            && (forall other :: other != c ==> CounterOf(after, other) == CounterOf(before, other))
            && SameButCounters(after, before)
  {
    var before := rows[i];
    if p(before) {
      BumpRow(before, c);
    }
  }

  /** The two rows agree on every column except the three counters. */
  predicate SameButCounters(a: Route, b: Route)
  {
    a.(attemptCount := 0, paymentCount := 0, accessCount := 0) == b.(attemptCount := 0, paymentCount := 0, accessCount := 0)
  }

  lemma BumpRow(r: Route, c: Counter)
    ensures CounterOf(Bump(c)(r), c) == CounterOf(r, c) + 1
    ensures forall other :: other != c ==> CounterOf(Bump(c)(r), other) == CounterOf(r, other)
    ensures SameButCounters(Bump(c)(r), r)
  {
    match c
    case Attempt =>
    case Payment =>
    case Access =>
  }

  /** Short codes are unique over every row, deleted or not (the column's unique index), and ids come from a sequence. */
  ghost predicate ValidRows(rows: seq<Route>, nextId: nat)
  {
    nextId > 0
    && (forall i, j :: 0 <= i < j < |rows| ==> rows[i].id < rows[j].id)
    && (forall i :: 0 <= i < |rows| ==> 0 < rows[i].id < nextId)
    && (forall i, j :: 0 <= i < j < |rows| ==> rows[i].shortCode != rows[j].shortCode)
  }

  /** An update that keeps every row's id and code keeps the table valid. */
  lemma UpdateKeepsValidity(rows: seq<Route>, nextId: nat, p: Route -> bool, f: Route -> Route)
    requires ValidRows(rows, nextId)
    requires forall r :: f(r).id == r.id && f(r).shortCode == r.shortCode
    ensures ValidRows(UpdateWhere(rows, p, f), nextId)
  {
    var u := UpdateWhere(rows, p, f);
    assert forall i :: 0 <= i < |rows| ==> u[i].id == rows[i].id && u[i].shortCode == rows[i].shortCode;
  }

  lemma BumpKeepsKeys(c: Counter)
    ensures forall r :: Bump(c)(r).id == r.id && Bump(c)(r).shortCode == r.shortCode
  {
  }

  /**
   * After a soft delete that found its row, the route no longer answers a
   * lookup by its code and a second delete of it reports not found.
   */
  lemma {:induction false} DeleteHidesRoute(rows: seq<Route>, nextId: nat, id: nat, userId: nat, now: int, k: nat)
    requires ValidRows(rows, nextId)
    requires k < |rows| && OwnedBy(id, userId)(rows[k])
    ensures var after := UpdateWhere(rows, OwnedBy(id, userId), SoftDelete(now));
            Count(after, EnabledWithCode(rows[k].shortCode)) == 0
            && Count(after, WithCode(rows[k].shortCode)) == 0
            && Count(after, OwnedBy(id, userId)) == 0
  {
    var after := UpdateWhere(rows, OwnedBy(id, userId), SoftDelete(now));
    forall j | 0 <= j < |after|
      ensures !EnabledWithCode(rows[k].shortCode)(after[j]) && !WithCode(rows[k].shortCode)(after[j])
    {
      if j != k {
        assert rows[j].shortCode != rows[k].shortCode;
      }
    }
  }

  class PaidRouteStore {
    var rows: seq<Route>
    var nextId: nat

    ghost predicate Valid()
      reads this
    {
      ValidRows(rows, nextId)
    }

    constructor()
      ensures Valid() && rows == [] && nextId == 1
    {
      rows := [];
      nextId := 1;
    }

    /**
     * Create: gorm assigns the next id, fills created_at and updated_at with
     * the clock when they are zero, and omits is_enabled when it is false, so
     * the column default (true) applies.  A code already in the table, even
     * on a deleted row, violates the unique index.
     */
    method Create(route: Route, now: int, fault: Option<Error>) returns (r: Result<Route, Error>)
      requires Valid()
      modifies this
      ensures Valid()
      ensures fault.Some? ==> r == Err(fault.value) && rows == old(rows) && nextId == old(nextId)
      ensures fault.None? && (exists i :: 0 <= i < |old(rows)| && old(rows)[i].shortCode == route.shortCode) ==>
                r == Err(Message("duplicate key value violates unique constraint"))
                && rows == old(rows) && nextId == old(nextId)
      ensures r.Ok? ==>
                r.value == Inserted(route, old(nextId), now) && rows == old(rows) + [r.value]
                && nextId == old(nextId) + 1
      ensures fault.None? && (forall i :: 0 <= i < |old(rows)| ==> old(rows)[i].shortCode != route.shortCode) ==> r.Ok?
    {
      if fault.Some? {
        return Err(fault.value);
      }
      if FirstWhere(rows, (x: Route) => x.shortCode == route.shortCode).Some? {
        return Err(Message("duplicate key value violates unique constraint"));
      }
      var row := Inserted(route, nextId, now);
      rows := rows + [row];
      nextId := nextId + 1;
      return Ok(row);
    }

    /** FindByShortCode: an enabled, undeleted route; gorm.ErrRecordNotFound otherwise. */
    function FindByShortCode(code: string, fault: Option<Error>): (r: Result<Route, Error>)
      reads this
      ensures fault.Some? ==> r == Err(fault.value)
      ensures fault.None? && r.Ok? ==> r.value in rows && r.value.shortCode == code && r.value.isEnabled && Live(r.value)
      ensures fault.None? ==>
                (r == Err(Sentinel(GormRecordNotFound)) <==> Count(rows, EnabledWithCode(code)) == 0)
    {
      if fault.Some? then Err(fault.value)
      else match FirstWhere(rows, EnabledWithCode(code))
        case None => Err(Sentinel(GormRecordNotFound))
        case Some(route) => Ok(route)
    }

    /** CheckShortCodeExists: COUNT(*) > 0 over the undeleted rows, enabled or not. */
    function CheckShortCodeExists(code: string, fault: Option<Error>): (r: Result<bool, Error>)
      reads this
      ensures fault.Some? ==> r == Err(fault.value)
      ensures fault.None? ==> r.Ok? && (r.value <==> exists i :: 0 <= i < |rows| && rows[i].shortCode == code && Live(rows[i]))
    {
      if fault.Some? then Err(fault.value)
      else Ok(Count(rows, WithCode(code)) > 0)
    }

    /** IncrementPaymentCount: only an enabled route counts; no row updated is gorm.ErrRecordNotFound. */
    method IncrementPaymentCount(code: string, fault: Option<Error>) returns (err: Option<Error>)
      requires Valid()
      modifies this
      ensures Valid() && nextId == old(nextId)
      ensures fault.Some? ==> err == fault && rows == old(rows)
      ensures fault.None? && Count(old(rows), EnabledWithCode(code)) == 0 ==>
                err == Some(Sentinel(GormRecordNotFound)) && rows == old(rows)
      ensures fault.None? && Count(old(rows), EnabledWithCode(code)) > 0 ==>
                err.None? && rows == UpdateWhere(old(rows), EnabledWithCode(code), Bump(Payment))
    {
      if fault.Some? {
        return fault;
      }
      if Count(rows, EnabledWithCode(code)) == 0 {
        return Some(Sentinel(GormRecordNotFound));
      }
      BumpKeepsKeys(Payment);
      UpdateKeepsValidity(rows, nextId, EnabledWithCode(code), Bump(Payment));
      rows := UpdateWhere(rows, EnabledWithCode(code), Bump(Payment));
      return None;
    }

    /** ListByUserID: the user's undeleted routes, newest first. */
    function ListByUserID(userId: nat, fault: Option<Error>): (r: Result<seq<Route>, Error>)
      reads this
      ensures fault.Some? ==> r == Err(fault.value)
      ensures fault.None? ==> r.Ok? && SortedDesc(r.value, CreatedAt)
      ensures fault.None? ==> forall x :: x in r.value <==> x in rows && x.userId == userId && Live(x)
    {
      if fault.Some? then Err(fault.value)
      else
        var mine := Filter(rows, OfUser(userId));
        SortDescSorted(mine, CreatedAt);
        Ok(SortDesc(mine, CreatedAt))
    }

    /** Delete: a soft delete of the owner's route; no row deleted is gorm.ErrRecordNotFound. */
    method Delete(routeId: nat, userId: nat, now: int, fault: Option<Error>) returns (err: Option<Error>)
      requires Valid()
      modifies this
      ensures Valid() && nextId == old(nextId)
      ensures fault.Some? ==> err == fault && rows == old(rows)
      ensures fault.None? && Count(old(rows), OwnedBy(routeId, userId)) == 0 ==>
                err == Some(Sentinel(GormRecordNotFound)) && rows == old(rows)
      ensures fault.None? && Count(old(rows), OwnedBy(routeId, userId)) > 0 ==>
                err.None? && rows == UpdateWhere(old(rows), OwnedBy(routeId, userId), SoftDelete(now))
    {
      if fault.Some? {
        return fault;
      }
      if Count(rows, OwnedBy(routeId, userId)) == 0 {
        return Some(Sentinel(GormRecordNotFound));
      }
      UpdateKeepsValidity(rows, nextId, OwnedBy(routeId, userId), SoftDelete(now));
      rows := UpdateWhere(rows, OwnedBy(routeId, userId), SoftDelete(now));
      return None;
    }

    /** IncrementAttemptCount: any undeleted route with the code, enabled or not. */
    method IncrementAttemptCount(code: string, fault: Option<Error>) returns (err: Option<Error>)
      requires Valid()
      modifies this
      ensures Valid() && nextId == old(nextId)
      ensures fault.Some? ==>
                err == Some(Wrapped("db error incrementing attempt count for " + code, fault.value)) && rows == old(rows)
      ensures fault.None? && Count(old(rows), WithCode(code)) == 0 ==>
                err == Some(NotUpdated(code, "attempt")) && Is(err.value, StoreRouteNotFound) && rows == old(rows)
      ensures fault.None? && Count(old(rows), WithCode(code)) > 0 ==>
                err.None? && rows == UpdateWhere(old(rows), WithCode(code), Bump(Attempt))
    {
      err := IncrementLive(code, Attempt, "attempt", fault);
      assert "db error incrementing " + "attempt" + " count for " + code == "db error incrementing attempt count for " + code;
    }

    /** IncrementAccessCount: as IncrementAttemptCount, for access_count. */
    method IncrementAccessCount(code: string, fault: Option<Error>) returns (err: Option<Error>)
      requires Valid()
      modifies this
      ensures Valid() && nextId == old(nextId)
      ensures fault.Some? ==>
                err == Some(Wrapped("db error incrementing access count for " + code, fault.value)) && rows == old(rows)
      ensures fault.None? && Count(old(rows), WithCode(code)) == 0 ==>
                err == Some(NotUpdated(code, "access")) && Is(err.value, StoreRouteNotFound) && rows == old(rows)
      ensures fault.None? && Count(old(rows), WithCode(code)) > 0 ==>
                err.None? && rows == UpdateWhere(old(rows), WithCode(code), Bump(Access))
    {
      err := IncrementLive(code, Access, "access", fault);
      assert "db error incrementing " + "access" + " count for " + code == "db error incrementing access count for " + code;
    }

    method IncrementLive(code: string, c: Counter, name: string, fault: Option<Error>) returns (err: Option<Error>)
      requires Valid()
      modifies this
      ensures Valid() && nextId == old(nextId)
      ensures fault.Some? ==>
                err == Some(Wrapped("db error incrementing " + name + " count for " + code, fault.value)) && rows == old(rows)
      ensures fault.None? && Count(old(rows), WithCode(code)) == 0 ==>
                err == Some(NotUpdated(code, name)) && rows == old(rows)
      ensures fault.None? && Count(old(rows), WithCode(code)) > 0 ==>
                err.None? && rows == UpdateWhere(old(rows), WithCode(code), Bump(c))
    {
      if fault.Some? {
        return Some(Wrapped("db error incrementing " + name + " count for " + code, fault.value));
      }
      if Count(rows, WithCode(code)) == 0 {
        return Some(NotUpdated(code, name));
      }
      BumpKeepsKeys(c);
      UpdateKeepsValidity(rows, nextId, WithCode(code), Bump(c));
      rows := UpdateWhere(rows, WithCode(code), Bump(c));
      return None;
    }
  }

  /** The row gorm inserts for `route`. */
  function Inserted(route: Route, id: nat, now: int): (r: Route)
    ensures r.id == id && r.shortCode == route.shortCode && r.isEnabled
    ensures r.createdAt == (if route.createdAt == PaidRouteQueries.ZeroTime then now else route.createdAt)
    ensures r.updatedAt == (if route.updatedAt == PaidRouteQueries.ZeroTime then now else route.updatedAt)
    ensures r.(id := 0, createdAt := 0, updatedAt := 0, isEnabled := true)
            == route.(id := 0, createdAt := 0, updatedAt := 0, isEnabled := true)
  {
    route.(id := id,
           createdAt := if route.createdAt == PaidRouteQueries.ZeroTime then now else route.createdAt,
           updatedAt := if route.updatedAt == PaidRouteQueries.ZeroTime then now else route.updatedAt,
           isEnabled := true)
  }

  /** "route CODE not found or no change needed for NAME count", wrapping ErrRouteNotFound. */
  function NotUpdated(code: string, name: string): (e: Error)
    ensures Is(e, StoreRouteNotFound) && !Is(e, GormRecordNotFound)
  {
    Wrapped("route " + code + " not found or no change needed for " + name + " count", Sentinel(StoreRouteNotFound))
  }
}
