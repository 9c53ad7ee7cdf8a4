/**
 * internal/core/services/paid_route_service.go: the older route service.
 * It validates the target, the method and a decimal price, then stores an
 * enabled route.  strconv.ParseFloat is the input `parseFloat` (None is its
 * error), with the float read as an exact real.  The store behind the
 * routes.Store interface for models.PaidRoute is not part of this model:
 * the gorm store stands in, with the short code it would generate passed
 * as `code`.
 */
module InternalRouteService {
  import opened Wrappers
  import opened Errors
  import opened Text
  import opened InternalPaidRouteStore
  import RouteRequests
  import RouteService
  import RequestUri

  const InvalidTarget: Error := Message("invalid target URL provided")
  const BadPrice: Error := Message("invalid price format: must be a decimal number")
  const NegativePrice: Error := Message("price must be greater or equal to 0")

  /** int64(price * 1000000) for a non-negative price: truncation toward zero. */
  function MicroUnits(price: real): (n: int)
    requires price >= 0.0
    ensures n >= 0
    ensures n as real <= price * 1000000.0 < n as real + 1.0
  {
    (price * 1000000.0).Floor
  }

  /** The checks in order; the price in millionths when every one passes. */
  function CheckRequest(targetUrl: string, httpMethod: string, priceText: string,
                        parseFloat: string -> Option<real>): (r: Result<int, Error>)
    ensures !RequestUri.IsHttpTarget(targetUrl) ==> r == Err(InvalidTarget)
    ensures RequestUri.IsHttpTarget(targetUrl) && ToUpper(httpMethod) !in RouteRequests.ValidMethods ==>
              r == Err(RouteRequests.InvalidMethod)
    ensures r.Ok? <==>
              RequestUri.IsHttpTarget(targetUrl) && ToUpper(httpMethod) in RouteRequests.ValidMethods
              && parseFloat(priceText).Some? && parseFloat(priceText).value >= 0.0
    ensures r.Ok? ==> r.value == MicroUnits(parseFloat(priceText).value)
    ensures RequestUri.IsHttpTarget(targetUrl) && ToUpper(httpMethod) in RouteRequests.ValidMethods ==>
              (parseFloat(priceText).None? ==> r == Err(BadPrice))
              && (parseFloat(priceText).Some? && parseFloat(priceText).value < 0.0 ==> r == Err(NegativePrice))
  {
    if !RequestUri.IsHttpTarget(targetUrl) then Err(InvalidTarget)
    else if ToUpper(httpMethod) !in RouteRequests.ValidMethods then Err(RouteRequests.InvalidMethod)
    else match parseFloat(priceText)
      case None => Err(BadPrice)
      case Some(f) => if f < 0.0 then Err(NegativePrice) else Ok(MicroUnits(f))
  }

  /** fmt.Errorf("failed to increment %s count for %s: %w"): errors.Is still sees the cause. */
  function WrapCount(counter: string, code: string, e: Option<Error>): (r: Option<Error>)
    ensures r.None? <==> e.None?
    ensures e.Some? ==> r.value.Wrapped? && r.value.cause == e.value
                        && forall k :: Is(r.value, k) <==> Is(e.value, k)
  {
    match e
    case None => None
    case Some(cause) => Some(Wrapped("failed to increment " + counter + " count for " + code, cause))
  }

  class Service {
    const store: PaidRouteStore

    constructor(store: PaidRouteStore)
      ensures this.store == store
    {
      this.store := store;
    }

    /** CreatePaidRoute: nothing is written unless every check passes. */
    method CreatePaidRoute(targetUrl: string, httpMethod: string, priceText: string, isTest: bool, userId: nat,
                           parseFloat: string -> Option<real>, code: string, now: int, fault: Option<Error>)
      returns (r: Result<Route, Error>)
      requires store.Valid()
      modifies store
      ensures store.Valid()
      ensures CheckRequest(targetUrl, httpMethod, priceText, parseFloat).Err? ==>
                r == Err(CheckRequest(targetUrl, httpMethod, priceText, parseFloat).error)
                && store.rows == old(store.rows)
      ensures r.Err? ==> store.rows == old(store.rows)
      ensures r.Ok? ==>
                CheckRequest(targetUrl, httpMethod, priceText, parseFloat).Ok?
                && r.value.httpMethod == ToUpper(httpMethod) && r.value.targetUrl == targetUrl
                && r.value.price == CheckRequest(targetUrl, httpMethod, priceText, parseFloat).value
                && r.value.isEnabled && r.value.isTest == isTest && r.value.userId == userId
                && r.value.shortCode == code && store.rows == old(store.rows) + [r.value]
      ensures CheckRequest(targetUrl, httpMethod, priceText, parseFloat).Ok? && fault.Some? ==>
                r == Err(Wrapped("failed to save paid route", fault.value))
      ensures (CheckRequest(targetUrl, httpMethod, priceText, parseFloat).Ok? && fault.None?
               && exists i :: 0 <= i < |old(store.rows)| && old(store.rows)[i].shortCode == code) ==>
                r == Err(Wrapped("failed to save paid route", Message("duplicate key value violates unique constraint")))
      ensures (CheckRequest(targetUrl, httpMethod, priceText, parseFloat).Ok? && fault.None?
               && forall i :: 0 <= i < |old(store.rows)| ==> old(store.rows)[i].shortCode != code) ==> r.Ok?
    {
      var checked := CheckRequest(targetUrl, httpMethod, priceText, parseFloat);
      if checked.Err? {
        return Err(checked.error);
      }
      var route := Route(0, 0, 0, None, code, targetUrl, ToUpper(httpMethod), checked.value, isTest, userId,
                         true, 0, 0, 0);
      var created := store.Create(route, now, fault);
      if created.Err? {
        return Err(Wrapped("failed to save paid route", created.error));
      }
      return Ok(created.value);
    }

    /** IncrementPaymentCount: the store's error, wrapped with the short code. */
    method IncrementPaymentCount(code: string, fault: Option<Error>) returns (err: Option<Error>)
      requires store.Valid()
      modifies store
      ensures store.Valid()
      ensures fault.Some? ==> err.Some? && forall k :: Is(err.value, k) <==> Is(fault.value, k)
      ensures fault.None? && Tables.Count(old(store.rows), EnabledWithCode(code)) == 0 ==>
                err.Some? && Is(err.value, GormRecordNotFound) && store.rows == old(store.rows)
      ensures fault.None? && Tables.Count(old(store.rows), EnabledWithCode(code)) > 0 ==>
                err.None? && store.rows == Tables.UpdateWhere(old(store.rows), EnabledWithCode(code), Bump(Payment))
    {
      var e := store.IncrementPaymentCount(code, fault);
      err := WrapCount("payment", code, e);
    }

    /** IncrementAttemptCount: the store's error, wrapped with the short code. */
    method IncrementAttemptCount(code: string, fault: Option<Error>) returns (err: Option<Error>)
      requires store.Valid()
      modifies store
      ensures store.Valid()
      ensures fault.Some? ==> err.Some? && forall k :: Is(err.value, k) <==> Is(fault.value, k)
      ensures fault.None? && Tables.Count(old(store.rows), WithCode(code)) == 0 ==>
                err.Some? && Is(err.value, StoreRouteNotFound) && store.rows == old(store.rows)
      ensures fault.None? && Tables.Count(old(store.rows), WithCode(code)) > 0 ==>
                err.None? && store.rows == Tables.UpdateWhere(old(store.rows), WithCode(code), Bump(Attempt))
    {
      var e := store.IncrementAttemptCount(code, fault);
      err := WrapCount("attempt", code, e);
    }

    /** IncrementAccessCount: the store's error, wrapped with the short code. */
    method IncrementAccessCount(code: string, fault: Option<Error>) returns (err: Option<Error>)
      requires store.Valid()
      modifies store
      ensures store.Valid()
      ensures fault.Some? ==> err.Some? && forall k :: Is(err.value, k) <==> Is(fault.value, k)
      ensures fault.None? && Tables.Count(old(store.rows), WithCode(code)) == 0 ==>
                err.Some? && Is(err.value, StoreRouteNotFound) && store.rows == old(store.rows)
      ensures fault.None? && Tables.Count(old(store.rows), WithCode(code)) > 0 ==>
                err.None? && store.rows == Tables.UpdateWhere(old(store.rows), WithCode(code), Bump(Access))
    {
      var e := store.IncrementAccessCount(code, fault);
      err := WrapCount("access", code, e);
    }

    /** DeleteRoute: the same error mapping as the routes package's service. */
    method DeleteRoute(routeId: nat, userId: nat, now: int, fault: Option<Error>) returns (err: Option<Error>)
      requires store.Valid()
      modifies store
      ensures store.Valid()
      ensures err.None? ==> store.rows == Tables.UpdateWhere(old(store.rows), OwnedBy(routeId, userId), SoftDelete(now))
      ensures err.Some? ==> store.rows == old(store.rows)
      ensures fault.Some? ==> err == Some(RouteService.DeleteError(fault.value))
      ensures fault.None? && Tables.Count(old(store.rows), OwnedBy(routeId, userId)) == 0 ==>
                err == Some(Wrapped("error deleting route", Sentinel(GormRecordNotFound)))
      ensures fault.None? && Tables.Count(old(store.rows), OwnedBy(routeId, userId)) > 0 ==>
                err.None? && store.rows == Tables.UpdateWhere(old(store.rows), OwnedBy(routeId, userId), SoftDelete(now))
    {
      var e := store.Delete(routeId, userId, now, fault);
      if e.Some? {
        return Some(RouteService.DeleteError(e.value));
      }
      return None;
    }
  }
}
