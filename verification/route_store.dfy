/**
 * store/paid_routes.go: the paid-route store over the sqlc statements.  It
 * maps pgx.ErrNoRows to the route sentinels, converts rows to routes,
 * generates short codes and retries until one is free.  The clock and the
 * random source are parameters (`now`, `entropy`); database failures are the
 * `fault` arguments passed on to the statements.
 */
module RouteStore {
  import opened Wrappers
  import opened Errors
  import opened Routes
  import opened PaidRouteQueries
  import Shortener
  import Base64
  import Tables

  /** The length CreateRoute asks for. */
  const CreateCodeLength: nat := 10
  /** The retry count GenerateUniqueShortCode falls back to. */
  const DefaultMaxRetries: nat := 10

  const TwoTo32: int := 0x1_0000_0000
  const TwoTo64: int := 0x1_0000_0000_0000_0000

  /** Go's int32(x) for an unsigned x: the low 32 bits, read as two's complement. */
  function ToInt32(x: nat): (r: Int32)
    ensures x <= Int32Max ==> r == x
    ensures (r - x) % TwoTo32 == 0
  {
    var m := x % TwoTo32;
    if m <= Int32Max then m else m - TwoTo32
  }

  /** Go's uint64(x) for an int32 x: negative values wrap to the top of the range. */
  function ToUint64(x: Int32): (r: nat)
    ensures x >= 0 ==> r == x
    ensures x < 0 ==> r == x + TwoTo64
  {
    if x < 0 then x + TwoTo64 else x
  }

  /**
   * A price survives the int32 column and back exactly when it fits in 31
   * bits, or when it is already the sign extension of a negative int32 (the
   * top 2^31 values of the uint64 range).  A price above 2147.483647 USDC
   * reads back as a different number.
   */
  lemma PriceRoundTrip(p: nat)
    requires p < TwoTo64
    ensures ToUint64(ToInt32(p)) == p <==> p <= Int32Max || p >= TwoTo64 - 0x8000_0000
  {
    var q, m := p / 0x1_0000_0000, p % 0x1_0000_0000;
    assert p == q * 0x1_0000_0000 + m;
    assert q < 0x1_0000_0000;
    if m <= Int32Max {
      assert ToUint64(ToInt32(p)) == m;
    } else {
      assert ToUint64(ToInt32(p)) == m - 0x1_0000_0000 + 0x1_0000_0000_0000_0000;
    }
  }

  // ---------------------------------------------------------- conversion

  function OptionOfText(t: NullText): Option<string> { t }

  /** A route with none of the columns convertToPaidRouteModel leaves out: no type, credits, resource type or metadata. */
  predicate Bare(route: PaidRoute)
  {
    route.credits == 0 && route.routeType == "" && route.resourceType == "" && route.originalFilename.None?
    && route.coverImageUrl.None? && route.title.None? && route.description.None?
  }

  /** convertToPaidRouteModel as written: only the columns it names are copied. */
  function ConvertAsWritten(row: Row): (r: PaidRoute)
    ensures r.deletedAt.Some? <==> row.deletedAt.Some?
    ensures r.deletedAt.Some? ==> r.deletedAt.value == row.deletedAt.value
    ensures r.id == row.id && r.shortCode == row.shortCode && r.userId == row.userId
    ensures r.createdAt == row.createdAt && r.isEnabled == row.isEnabled
    ensures r.attemptCount == ToUint64(row.attemptCount) && r.paymentCount == ToUint64(row.paymentCount)
            && r.accessCount == ToUint64(row.accessCount)
    ensures Bare(r)
  {
    PaidRoute(row.id, row.shortCode, row.httpMethod, row.targetUrl, "", None, None, None, None,
              ToUint64(row.price), "", 0, row.isTest, row.userId, row.isEnabled,
              ToUint64(row.attemptCount), ToUint64(row.paymentCount), ToUint64(row.accessCount),
              row.createdAt, row.updatedAt, row.deletedAt, 0)
  }

  /** The corrected conversion: every column the table has. */
  function Convert(row: Row): (r: PaidRoute)
    ensures r.deletedAt.Some? <==> row.deletedAt.Some?
    ensures r.deletedAt.Some? ==> r.deletedAt.value == row.deletedAt.value
    ensures r.id == row.id && r.shortCode == row.shortCode && r.userId == row.userId
    ensures r.createdAt == row.createdAt && r.isEnabled == row.isEnabled
    ensures r.attemptCount == ToUint64(row.attemptCount) && r.paymentCount == ToUint64(row.paymentCount)
            && r.accessCount == ToUint64(row.accessCount)
    ensures r.paymentProtocolVersion == 0
  {
    PaidRoute(row.id, row.shortCode, row.httpMethod, row.targetUrl, row.resourceType,
              row.originalFilename, row.coverUrl, row.title, row.description,
              ToUint64(row.price), row.routeType, ToUint64(row.credits), row.isTest, row.userId, row.isEnabled,
              ToUint64(row.attemptCount), ToUint64(row.paymentCount), ToUint64(row.accessCount),
              row.createdAt, row.updatedAt, row.deletedAt, 0)
  }

  /** CreateRoute's parameters as written: type, credits, resource type and the metadata are not passed. */
  function ParamsAsWritten(route: PaidRoute, code: string, now: int): CreateParams
  {
    CreateParams(code, route.targetUrl, route.httpMethod, ToInt32(route.price), route.isTest, route.userId,
                 route.isEnabled, 0, 0, 0, now, now, "", 0, "", None, None, None, None)
  }

  /** The parameters with every column the route has a value for. */
  function Params(route: PaidRoute, code: string, now: int): CreateParams
  {
    CreateParams(code, route.targetUrl, route.httpMethod, ToInt32(route.price), route.isTest, route.userId,
                 route.isEnabled, 0, 0, 0, now, now, route.routeType, ToInt32(route.credits), route.resourceType,
                 route.originalFilename, route.coverImageUrl, route.title, route.description)
  }

  /** The route the store hands back for a new route, counters zero and timestamps now. */
  function Stored(route: PaidRoute, id: nat, code: string, now: int): PaidRoute
  {
    route.(id := id, shortCode := code, attemptCount := 0, paymentCount := 0, accessCount := 0,
           createdAt := now, updatedAt := now, deletedAt := None, paymentProtocolVersion := 0)
  }

  /**
   * As written, a created route always comes back with no credits and no
   * type, whatever the caller asked for.
   */
  lemma CreateAsWrittenLosesCredits(route: PaidRoute, id: nat, code: string, now: int)
    requires route.credits == 5 && route.routeType == "credit"
    ensures ConvertAsWritten(RowOf(id, ParamsAsWritten(route, code, now))).credits == 0
    ensures ConvertAsWritten(RowOf(id, ParamsAsWritten(route, code, now))) != Stored(route, id, code, now)
  {
  }

  /**
   * With the full parameters and conversion, storing a route and reading it
   * back returns what was stored (price and credits within int32).
   */
  lemma CreateRoundTrip(route: PaidRoute, id: nat, code: string, now: int)
    requires route.price <= Int32Max && route.credits <= Int32Max
    ensures Convert(RowOf(id, Params(route, code, now))) == Stored(route, id, code, now)
  {
  }

  /**
   * Which store/paid_routes.go is meant: the program as written, or the
   * corrected store that passes every column and both timestamps.
   */
  datatype Revision = AsWritten | Corrected

  /** The conversion a revision applies to every row it reads. */
  function ToRoute(rev: Revision, row: Row): PaidRoute
  {
    if rev.Corrected? then Convert(row) else ConvertAsWritten(row)
  }

  /** The parameters a revision's CreateRoute passes. */
  function ParamsFor(rev: Revision, route: PaidRoute, code: string, now: int): CreateParams
  {
    if rev.Corrected? then Params(route, code, now) else ParamsAsWritten(route, code, now)
  }

  /** The deleted_at a revision's DeleteRoute sends. */
  function DeletedAt(rev: Revision, now: int): NullTime
  {
    if rev.Corrected? then Some(now) else DeletedAtAsWritten
  }

  /** The updated_at a revision's counter updates send. */
  function UpdatedAt(rev: Revision, now: int): int
  {
    if rev.Corrected? then now else UpdatedAtAsWritten
  }

  /** What of a route survives a revision's insert and read-back. */
  function Kept(rev: Revision, route: PaidRoute): PaidRoute
  {
    if rev.Corrected? then route
    else route.(resourceType := "", originalFilename := None, coverImageUrl := None, title := None,
                description := None, routeType := "", credits := 0)
  }

  /**
   * What CreateRoute hands back for a route stored under `id` and `code`:
   * what the revision keeps of it, with the price and credits through the
   * int32 columns.
   */
  function Created(rev: Revision, route: PaidRoute, id: nat, code: string, now: int): PaidRoute
  {
    Stored(Kept(rev, route), id, code, now).(price := ToUint64(ToInt32(route.price)),
                                             credits := ToUint64(ToInt32(Kept(rev, route).credits)))
  }

  /**
   * Storing a route and reading it back gives the route with the columns
   * the revision keeps, counters zero, timestamps now, and price and
   * credits through the int32 columns.
   */
  lemma ReadBack(rev: Revision, route: PaidRoute, id: nat, code: string, now: int)
    ensures ToRoute(rev, RowOf(id, ParamsFor(rev, route, code, now))) == Created(rev, route, id, code, now)
    ensures rev.AsWritten? ==> Bare(Kept(rev, route))
    ensures rev.Corrected? ==> Kept(rev, route) == route
  {
  }

  /** pgx.ErrNoRows becomes routes.ErrRouteNotFound; other errors pass through unchanged. */
  function FindResult(rev: Revision, r: Result<Row, Error>): (out: Result<PaidRoute, Error>)
    ensures r.Ok? ==> out == Ok(ToRoute(rev, r.value))
    ensures r.Err? && Is(r.error, PgxNoRows) ==> out == Err(Sentinel(RouteNotFound))
    ensures r.Err? && !Is(r.error, PgxNoRows) ==> out == Err(r.error)
  {
    match r
    case Ok(row) => Ok(ToRoute(rev, row))
    case Err(e) => if Is(e, PgxNoRows) then Err(Sentinel(RouteNotFound)) else Err(e)
  }

  /** What the random source gave on each attempt, turned into codes. */
  function Draws(length: int, entropy: seq<Result<seq<Base64.Byte>, Error>>): (codes: seq<Result<string, Error>>)
    requires forall k :: 0 <= k < |entropy| && entropy[k].Ok? ==>
               |entropy[k].value| >= Shortener.NumBytes(Shortener.EffectiveLength(length))
    ensures |codes| == |entropy|
    ensures forall k :: 0 <= k < |codes| ==> codes[k] == Shortener.GenerateSecureShortCode(length, entropy[k])
  {
    seq(|entropy|, k requires 0 <= k < |entropy| => Shortener.GenerateSecureShortCode(length, entropy[k]))
  }

  /** The uniqueness retry from attempt i on, as a function of each attempt's code and existence check. */
  function Attempts(rows: seq<Row>, codes: seq<Result<string, Error>>, faults: seq<Option<Error>>, i: nat, n: nat): Result<string, Error>
    requires i <= n <= |codes| && n <= |faults|
    decreases n - i
  {
    if i == n then Err(Exhausted)
    else
      match codes[i]
      case Err(e) => Err(Wrapped("failed to generate short code", e))
      case Ok(code) =>
        match CheckResult(rows, code, faults[i])
        case Err(e) => Err(e)
        case Ok(taken) => if taken then Attempts(rows, codes, faults, i + 1, n) else Ok(code)
  }

  /** Store.CheckShortCodeExists over a table. */
  function CheckResult(rows: seq<Row>, code: string, fault: Option<Error>): (r: Result<bool, Error>)
    ensures fault.Some? ==> r == Err(Wrapped("failed to check if short code exists", fault.value))
    ensures fault.None? ==> r == Ok(Taken(rows, code))
  {
    if fault.Some? then Err(Wrapped("failed to check if short code exists", fault.value))
    else Ok(Tables.FirstWhere(rows, (x: Row) => x.shortCode == code).Some?)
  }

  predicate Taken(rows: seq<Row>, code: string)
  {
    exists k :: 0 <= k < |rows| && rows[k].shortCode == code
  }

  /** Attempts i up to (not including) k all drew a code that was taken, without error. */
  predicate AllTaken(rows: seq<Row>, codes: seq<Result<string, Error>>, faults: seq<Option<Error>>, i: nat, k: nat)
    requires k <= |codes| && k <= |faults|
  {
    forall j :: i <= j < k ==> codes[j].Ok? && faults[j].None? && Taken(rows, codes[j].value)
  }

  const Exhausted: Error := Message("failed to generate a unique short code after multiple attempts")

  /** A code the retry returns is the first drawn code that is free. */
  lemma {:induction false} AttemptsReturnFirstFree(rows: seq<Row>, codes: seq<Result<string, Error>>,
                                                  faults: seq<Option<Error>>, i: nat, n: nat)
    requires i <= n <= |codes| && n <= |faults|
    ensures var r := Attempts(rows, codes, faults, i, n);
            r.Ok? ==> !Taken(rows, r.value)
                      && exists k :: i <= k < n && codes[k] == Ok(r.value) && AllTaken(rows, codes, faults, i, k)
    decreases n - i
  {
    if i < n && codes[i].Ok? && faults[i].None? && Taken(rows, codes[i].value) {
      AttemptsReturnFirstFree(rows, codes, faults, i + 1, n);
      var r := Attempts(rows, codes, faults, i, n);
      if r.Ok? {
        var k :| i + 1 <= k < n && codes[k] == Ok(r.value) && AllTaken(rows, codes, faults, i + 1, k);
        assert AllTaken(rows, codes, faults, i, k);
      }
    } else if i < n {
      var r := Attempts(rows, codes, faults, i, n);
      if r.Ok? {
        assert codes[i] == Ok(r.value) && AllTaken(rows, codes, faults, i, i);
      }
    }
  }

  /**
   * The retry gives up only after every one of its attempts drew a code
   * that was already taken, with no generator or existence-check error.
   */
  lemma {:induction false} AttemptsExhaustedMeansAllTaken(rows: seq<Row>, codes: seq<Result<string, Error>>,
                                                         faults: seq<Option<Error>>, i: nat, n: nat)
    requires i <= n <= |codes| && n <= |faults|
    requires Attempts(rows, codes, faults, i, n) == Err(Exhausted)
    ensures AllTaken(rows, codes, faults, i, n)
    decreases n - i
  {
    if i < n {
      AttemptsExhaustedMeansAllTaken(rows, codes, faults, i + 1, n);
    }
  }

  /** With generated codes, a code the retry returns has the effective length. */
  lemma DrawnCodeLength(rows: seq<Row>, length: int, entropy: seq<Result<seq<Base64.Byte>, Error>>,
                        faults: seq<Option<Error>>, n: nat)
    requires n <= |entropy| && n <= |faults|
    requires forall k :: 0 <= k < |entropy| && entropy[k].Ok? ==>
               |entropy[k].value| >= Shortener.NumBytes(Shortener.EffectiveLength(length))
    ensures var r := Attempts(rows, Draws(length, entropy), faults, 0, n);
            r.Ok? ==> |r.value| == Shortener.EffectiveLength(length) && !Taken(rows, r.value)
  {
    var codes := Draws(length, entropy);
    AttemptsReturnFirstFree(rows, codes, faults, 0, n);
  }

  // ------------------------------------------------- timestamps passed

  /** DeleteRoute as written leaves DeletedAt at its zero value, which pgx sends as NULL. */
  const DeletedAtAsWritten: NullTime := None

  /** The increments as written leave UpdatedAt at Go's zero time. */
  const UpdatedAtAsWritten: int := ZeroTime

  /**
   * As written, deleting a route changes no row: the route the owner deleted
   * is still served by the enabled lookup.
   */
  lemma DeleteAsWrittenKeepsRouteServed(rows: seq<Row>, i: nat)
    requires i < |rows| && rows[i].isEnabled && Live(rows[i])
    ensures var after := SoftDeleteAll(rows, rows[i].id, rows[i].userId, DeletedAtAsWritten);
            after == rows && after[i].shortCode == rows[i].shortCode && after[i].isEnabled && Live(after[i])
  {
    SoftDeleteWithNullIsNoOp(rows, rows[i].id, rows[i].userId);
  }

  /**
   * Passing the deletion time, the owner's delete hides the route from every
   * lookup that filters deleted rows, and leaves other owners' rows alone.
   */
  lemma DeleteHidesRoute(rows: seq<Row>, nextId: nat, i: nat, now: int)
    requires ValidRows(rows, nextId) && i < |rows|
    ensures var after := SoftDeleteAll(rows, rows[i].id, rows[i].userId, Some(now));
            (forall j :: 0 <= j < |after| ==> !Targets(after[j], rows[i].shortCode))
            && forall j :: 0 <= j < |rows| && rows[j].userId != rows[i].userId ==> after[j] == rows[j]
  {
    var after := SoftDeleteAll(rows, rows[i].id, rows[i].userId, Some(now));
    forall j | 0 <= j < |after| ensures !Targets(after[j], rows[i].shortCode) {
      if j != i {
        assert rows[j].shortCode != rows[i].shortCode;
      }
    }
  }

  /**
   * As written, every counter update also moves updated_at back to the year 1,
   * before the row was created.
   */
  lemma IncrementAsWrittenRewindsUpdatedAt(rows: seq<Row>, code: string, c: Counter, i: nat)
    requires !WouldOverflow(rows, code, c) && i < |rows| && Targets(rows[i], code)
    requires rows[i].createdAt > ZeroTime
    ensures var after := IncrementAll(rows, code, c, UpdatedAtAsWritten)[i];
            after.updatedAt == ZeroTime && after.updatedAt < after.createdAt
  {
  }

  /** Passing the clock's time, an update leaves updated_at at that time. */
  lemma IncrementStampsNow(rows: seq<Row>, code: string, c: Counter, i: nat, now: int)
    requires !WouldOverflow(rows, code, c) && i < |rows| && Targets(rows[i], code)
    ensures IncrementAll(rows, code, c, now)[i].updatedAt == now
  {
  }

  class Store {
    const queries: Queries
    /** The program is the AsWritten store. */
    const revision: Revision

    constructor(queries: Queries, revision: Revision)
      ensures this.queries == queries && this.revision == revision
    {
      this.queries := queries;
      this.revision := revision;
    }

    /** FindRouteByID. */
    function FindRouteById(id: nat, fault: Option<Error>): (r: Result<PaidRoute, Error>)
      reads queries
      ensures r.Ok? ==> r.value.id == id && r.value.deletedAt.None?
      ensures revision.AsWritten? && r.Ok? ==> Bare(r.value)
      ensures fault.None? && r.Err? ==> r.error == Sentinel(RouteNotFound)
      ensures fault.None? ==>
                (r == Err(Sentinel(RouteNotFound)) <==>
                 forall i :: 0 <= i < |queries.rows| ==> !(queries.rows[i].id == id && Live(queries.rows[i])))
      ensures fault.Some? && !Is(fault.value, PgxNoRows) ==> r == Err(fault.value)
    {
      FindResult(revision, queries.GetById(id, fault))
    }

    /** FindRouteByShortCode: a disabled route is found, a deleted one is not. */
    function FindRouteByShortCode(code: string, fault: Option<Error>): (r: Result<PaidRoute, Error>)
      reads queries
      ensures r.Ok? ==> r.value.shortCode == code && r.value.deletedAt.None?
      ensures revision.AsWritten? && r.Ok? ==> Bare(r.value)
      ensures fault.None? ==> (r == Err(Sentinel(RouteNotFound)) <==> forall i :: 0 <= i < |queries.rows| ==> !Targets(queries.rows[i], code))
      ensures fault.Some? && !Is(fault.value, PgxNoRows) ==> r == Err(fault.value)
    {
      FindResult(revision, queries.GetByShortCode(code, fault))
    }

    /** FindEnabledRouteByShortCode: the lookup the paid-route handler makes. */
    function FindEnabledRouteByShortCode(code: string, fault: Option<Error>): (r: Result<PaidRoute, Error>)
      reads queries
      ensures r.Ok? ==> r.value.shortCode == code && r.value.isEnabled && r.value.deletedAt.None?
      ensures revision.AsWritten? && r.Ok? ==> Bare(r.value)
      ensures fault.None? ==>
                (r == Err(Sentinel(RouteNotFound)) <==>
                 forall i :: 0 <= i < |queries.rows| ==> !(queries.rows[i].shortCode == code && queries.rows[i].isEnabled && Live(queries.rows[i])))
      ensures fault.Some? && !Is(fault.value, PgxNoRows) ==> r == Err(fault.value)
    {
      FindResult(revision, queries.GetEnabledByShortCode(code, fault))
    }

    /** CheckShortCodeExists. */
    function CheckShortCodeExists(code: string, fault: Option<Error>): (r: Result<bool, Error>)
      reads queries
      ensures fault.Some? ==> r == Err(Wrapped("failed to check if short code exists", fault.value))
      ensures fault.None? ==> r == Ok(Taken(queries.rows, code))
    {
      CheckResult(queries.rows, code, fault)
    }

    /** ListUserRoutes: the user's listing, each row converted in place. */
    method ListUserRoutes(userId: nat, queryFault: Option<Error>, scanFault: Option<(nat, Error)>,
                          iterFault: Option<Error>) returns (r: Result<seq<PaidRoute>, Error>)
      ensures r.Ok? ==>
                var listing := OrderByCreatedDesc(LiveRowsOf(queries.rows, userId));
                |r.value| == |listing| && forall i :: 0 <= i < |listing| ==> r.value[i] == ToRoute(revision, listing[i])
      ensures r.Err? <==> queryFault.Some? || iterFault.Some?
                          || (scanFault.Some? && scanFault.value.0 < |OrderByCreatedDesc(LiveRowsOf(queries.rows, userId))|)
    {
      var db := queries.ListUserPaidRoutes(userId, queryFault, scanFault, iterFault);
      if db.Err? {
        return Err(db.error);
      }
      var dbRoutes := db.value;
      var routes: seq<PaidRoute> := [];
      for i := 0 to |dbRoutes|
        invariant |routes| == i
        invariant forall k :: 0 <= k < i ==> routes[k] == ToRoute(revision, dbRoutes[k])
      {
        routes := routes + [ToRoute(revision, dbRoutes[i])];
      }
      return Ok(routes);
    }

    /**
     * DeleteRoute.  The statement is an Exec, which reports no missing row:
     * the ErrRouteNoPermission branch needs a driver error that wraps
     * pgx.ErrNoRows.
     */
    method DeleteRoute(routeId: nat, userId: nat, now: int, fault: Option<Error>) returns (err: Option<Error>)
      requires queries.Valid()
      modifies queries
      ensures queries.Valid()
      ensures fault.None? ==>
                err.None? && queries.rows == SoftDeleteAll(old(queries.rows), routeId, userId, DeletedAt(revision, now))
      ensures fault.None? && revision.AsWritten? ==> queries.rows == old(queries.rows)
      ensures fault.Some? ==> queries.rows == old(queries.rows)
      ensures fault.Some? && Is(fault.value, PgxNoRows) ==> err == Some(Sentinel(RouteNoPermission))
      ensures fault.Some? && !Is(fault.value, PgxNoRows) ==> err == fault
    {
      ghost var before := queries.rows;
      var e := queries.DeletePaidRoute(routeId, userId, DeletedAt(revision, now), fault);
      if e.None? && revision.AsWritten? {
        SoftDeleteWithNullIsNoOp(before, routeId, userId);
      }
      if e.Some? {
        if Is(e.value, PgxNoRows) {
          return Some(Sentinel(RouteNoPermission));
        }
        return e;
      }
      return None;
    }

    /** IncrementRouteAttemptCount, IncrementRoutePaymentCount and IncrementRouteAccessCount. */
    method IncrementRouteCount(code: string, c: Counter, now: int, fault: Option<Error>) returns (err: Option<Error>)
      requires queries.Valid()
      modifies queries
      ensures queries.Valid()
      ensures err.None? ==> !WouldOverflow(old(queries.rows), code, c)
                            && queries.rows == IncrementAll(old(queries.rows), code, c, UpdatedAt(revision, now))
      ensures err.Some? ==> queries.rows == old(queries.rows)
      ensures err.Some? ==> exists e :: err == Some(Wrapped(CountContext(c), e))
      ensures err.None? <==> fault.None? && !WouldOverflow(old(queries.rows), code, c)
      ensures fault.Some? ==> err == Some(Wrapped(CountContext(c), fault.value))
    {
      var e := queries.Increment(code, c, UpdatedAt(revision, now), fault);
      if e.Some? {
        return Some(Wrapped(CountContext(c), e.value));
      }
      return None;
    }

    /**
     * GenerateUniqueShortCode.  `entropy[i]` and `faults[i]` are what the
     * random source and the existence check gave on attempt i.
     */
    method GenerateUniqueShortCode(length: int, maxRetries: int, entropy: seq<Result<seq<Base64.Byte>, Error>>,
                                   faults: seq<Option<Error>>) returns (r: Result<string, Error>)
      requires |entropy| >= Retries(maxRetries) && |faults| >= Retries(maxRetries)
      requires forall k :: 0 <= k < |entropy| && entropy[k].Ok? ==>
                 |entropy[k].value| >= Shortener.NumBytes(Shortener.EffectiveLength(length))
      ensures r == Attempts(queries.rows, Draws(length, entropy), faults, 0, Retries(maxRetries))
    {
      var n := length;
      if n <= 0 {
        n := Shortener.DefaultLength;
      }
      var retries := maxRetries;
      if retries <= 0 {
        retries := DefaultMaxRetries;
      }
      var i := 0;
      while i < retries
        invariant 0 <= i <= retries == Retries(maxRetries)
        invariant Attempts(queries.rows, Draws(length, entropy), faults, 0, retries)
                  == Attempts(queries.rows, Draws(length, entropy), faults, i, retries)
      {
        var code := Shortener.GenerateSecureShortCode(n, entropy[i]);
        if code.Err? {
          return Err(Wrapped("failed to generate short code", code.error));
        }
        var exists_ := CheckShortCodeExists(code.value, faults[i]);
        if exists_.Err? {
          return Err(exists_.error);
        }
        if !exists_.value {
          return Ok(code.value);
        }
        i := i + 1;
      }
      return Err(Exhausted);
    }

    /**
     * CreateRoute: a fresh 10-character code, then the insert.  The route
     * that comes back holds what the revision keeps of the one passed in.
     */
    method CreateRoute(route: PaidRoute, entropy: Result<seq<Base64.Byte>, Error>, now: int,
                       fault: Option<Error>) returns (r: Result<PaidRoute, Error>)
      requires queries.Valid()
      requires entropy.Ok? ==> |entropy.value| >= Shortener.NumBytes(CreateCodeLength)
      modifies queries
      ensures queries.Valid()
      ensures entropy.Err? ==>
                r == Err(Wrapped("failed to generate unique short code", entropy.error)) && queries.rows == old(queries.rows)
      ensures r.Ok? ==>
                |r.value.shortCode| == CreateCodeLength
                && entropy.Ok? && r.value.shortCode == Shortener.GenerateSecureShortCode(CreateCodeLength, entropy).value
                && r.value == Created(revision, route, old(queries.nextId), r.value.shortCode, now)
                && queries.rows == old(queries.rows) + [RowOf(old(queries.nextId), ParamsFor(revision, route, r.value.shortCode, now))]
      ensures revision.AsWritten? && r.Ok? ==> Bare(r.value)
      ensures r.Err? ==> queries.rows == old(queries.rows)
      ensures fault.Some? ==> r.Err? && queries.rows == old(queries.rows)
      ensures (entropy.Ok? && fault.None?
               && !Taken(old(queries.rows), Shortener.GenerateSecureShortCode(CreateCodeLength, entropy).value)) ==> r.Ok?
    {
      var code := Shortener.GenerateSecureShortCode(CreateCodeLength, entropy);
      if code.Err? {
        return Err(Wrapped("failed to generate unique short code", code.error));
      }
      var row := queries.CreatePaidRoute(ParamsFor(revision, route, code.value, now), fault);
      if row.Err? {
        return Err(Wrapped("failed to create paid route", row.error));
      }
      ReadBack(revision, route, row.value.id, code.value, now);
      return Ok(ToRoute(revision, row.value));
    }
  }

  function Retries(maxRetries: int): nat
  {
    if maxRetries <= 0 then DefaultMaxRetries else maxRetries
  }

  function CountContext(c: Counter): string
  {
    match c
    case Attempt => "failed to increment attempt count"
    case Payment => "failed to increment payment count"
    case Access => "failed to increment access count"
  }
}
