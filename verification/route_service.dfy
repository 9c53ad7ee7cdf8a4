/**
 * routes/service.go: building new URL and file routes, the counter wrappers
 * and the owner's delete, over the paid-route store.  The object storage
 * is an input: `uploadUrl` is what GetUploadURL returned, `cover` what the
 * cover-image upload returned (None when no cover image was attached), and
 * `nanos` the clock reading that names the stored object.
 */
module RouteService {
  import opened Wrappers
  import opened Errors
  import opened Text
  import opened Routes
  import opened RouteRequests
  import PaidRouteQueries
  import RouteStore
  import RequestUri
  import Base64
  import Shortener

  const InvalidTarget: Error := Message("invalid target URL provided")

  /** Optional text is stored only when it is not empty. */
  function NonEmpty(s: string): Option<string>
  {
    if s == "" then None else Some(s)
  }

  /** The route CreateURLRoute hands to the store. */
  function NewUrlRoute(req: UrlRouteRequest, userId: nat, price: nat, cover: Option<string>): PaidRoute
  {
    PaidRoute(0, "", ToUpper(req.httpMethod), req.targetUrl, "url", None, cover, NonEmpty(req.title),
              NonEmpty(req.description), price, req.routeType, req.credits, req.isTest, userId, true,
              0, 0, 0, PaidRouteQueries.ZeroTime, PaidRouteQueries.ZeroTime, None, PaymentProtocolVersionV2)
  }

  /** The object key of an uploaded file: "<userID>/<nanoseconds>". */
  function ObjectKey(userId: nat, nanos: int): (k: string)
    ensures NatToDecimal(userId) + "/" <= k
  {
    NatToDecimal(userId) + "/" + IntToDecimal(nanos)
  }

  /** The route CreateFileRoute hands to the store. */
  function NewFileRoute(req: FileRouteRequest, userId: nat, key: string, price: nat, cover: Option<string>): PaidRoute
  {
    PaidRoute(0, "", "GET", key, "file", Some(req.originalFilename), cover, NonEmpty(req.title),
              NonEmpty(req.description), price, req.routeType, req.credits, req.isTest, userId, true,
              0, 0, 0, PaidRouteQueries.ZeroTime, PaidRouteQueries.ZeroTime, None, PaymentProtocolVersionV2)
  }

  /** The uploaded cover image's URL, when one was attached and uploaded. */
  function CoverUrl(cover: Option<Result<string, Error>>): Option<string>
  {
    if cover.Some? && cover.value.Ok? then Some(cover.value.value) else None
  }

  /**
   * DeleteRoute's error mapping: the two route sentinels come back bare,
   * anything else is wrapped, keeping its identity.
   */
  function DeleteError(e: Error): (r: Error)
    ensures Is(e, RouteNotFound) ==> r == Sentinel(RouteNotFound)
    ensures !Is(e, RouteNotFound) && Is(e, RouteNoPermission) ==> r == Sentinel(RouteNoPermission)
    ensures !Is(e, RouteNotFound) && !Is(e, RouteNoPermission) ==> r == Wrapped("error deleting route", e)
    ensures forall k :: Is(r, k) ==> Is(e, k)
  {
    if Is(e, RouteNotFound) then Sentinel(RouteNotFound)
    else if Is(e, RouteNoPermission) then Sentinel(RouteNoPermission)
    else Wrapped("error deleting route", e)
  }

  /** "failed to increment NAME count for CODE". */
  function CountError(c: PaidRouteQueries.Counter, code: string, e: Error): Error
  {
    match c
    case Attempt => Wrapped("failed to increment attempt count for " + code, e)
    case Payment => Wrapped("failed to increment payment count for " + code, e)
    case Access => Wrapped("failed to increment access count for " + code, e)
  }

  class Service {
    const store: RouteStore.Store

    constructor(store: RouteStore.Store)
      ensures this.store == store
    {
      this.store := store;
    }

    /**
     * CreateURLRoute: an http(s) target and a parsable price, then the
     * record with the upper-cased method, enabled, protocol V2, resource
     * type "url", and the cover image uploaded before the insert.
     */
    method CreateUrlRoute(req: UrlRouteRequest, userId: nat, parsePrice: string -> Result<nat, Error>,
                          cover: Option<Result<string, Error>>, entropy: Result<seq<Base64.Byte>, Error>,
                          now: int, fault: Option<Error>) returns (r: Result<PaidRoute, Error>)
      requires store.queries.Valid()
      requires entropy.Ok? ==> |entropy.value| >= Shortener.NumBytes(RouteStore.CreateCodeLength)
      modifies store.queries
      ensures store.queries.Valid()
      ensures r.Err? ==> store.queries.rows == old(store.queries.rows)
      ensures !RequestUri.IsHttpTarget(req.targetUrl) ==> r == Err(InvalidTarget)
      ensures RequestUri.IsHttpTarget(req.targetUrl) && parsePrice(req.price).Err? ==> r == Err(parsePrice(req.price).error)
      ensures RequestUri.IsHttpTarget(req.targetUrl) && parsePrice(req.price).Ok? && cover.Some? && cover.value.Err? ==>
                r == Err(Wrapped("failed to upload cover image", cover.value.error))
      ensures r.Ok? ==>
                RequestUri.IsHttpTarget(req.targetUrl) && parsePrice(req.price).Ok? && (cover.None? || cover.value.Ok?)
                && entropy.Ok? && r.value.shortCode == Shortener.GenerateSecureShortCode(RouteStore.CreateCodeLength, entropy).value
                && |r.value.shortCode| == RouteStore.CreateCodeLength
                && var route := NewUrlRoute(req, userId, parsePrice(req.price).value, CoverUrl(cover));
                   r.value == RouteStore.Created(store.revision, route, old(store.queries.nextId), r.value.shortCode, now)
                   && store.queries.rows
                      == old(store.queries.rows)
                         + [PaidRouteQueries.RowOf(old(store.queries.nextId),
                                                   RouteStore.ParamsFor(store.revision, route, r.value.shortCode, now))]
      ensures (RequestUri.IsHttpTarget(req.targetUrl) && parsePrice(req.price).Ok? && (cover.None? || cover.value.Ok?)
               && entropy.Ok? && fault.None?
               && !RouteStore.Taken(old(store.queries.rows),
                                    Shortener.GenerateSecureShortCode(RouteStore.CreateCodeLength, entropy).value)) ==> r.Ok?
    {
      if !RequestUri.IsHttpTarget(req.targetUrl) {
        return Err(InvalidTarget);
      }
      var price := parsePrice(req.price);
      if price.Err? {
        return Err(price.error);
      }
      var coverUrl: Option<string> := None;
      if cover.Some? {
        if cover.value.Err? {
          return Err(Wrapped("failed to upload cover image", cover.value.error));
        }
        coverUrl := Some(cover.value.value);
      }
      var route := NewUrlRoute(req, userId, price.value, coverUrl);
      var created := store.CreateRoute(route, entropy, now, fault);
      if created.Err? {
        return Err(Wrapped("failed to save paid route", created.error));
      }
      return Ok(created.value);
    }

    /**
     * CreateFileRoute: a parsable price and an upload URL come first; the
     * record names the object "<userID>/<nanos>", is fetched with GET, has
     * resource type "file" and keeps the original file name.
     */
    method CreateFileRoute(req: FileRouteRequest, userId: nat, nanos: int, parsePrice: string -> Result<nat, Error>,
                           uploadUrl: Result<string, Error>, cover: Option<Result<string, Error>>,
                           entropy: Result<seq<Base64.Byte>, Error>, now: int, fault: Option<Error>)
      returns (r: Result<(PaidRoute, string), Error>)
      requires store.queries.Valid()
      requires entropy.Ok? ==> |entropy.value| >= Shortener.NumBytes(RouteStore.CreateCodeLength)
      modifies store.queries
      ensures store.queries.Valid()
      ensures r.Err? ==> store.queries.rows == old(store.queries.rows)
      ensures parsePrice(req.price).Err? ==> r == Err(parsePrice(req.price).error)
      ensures parsePrice(req.price).Ok? && uploadUrl.Err? ==> r == Err(Wrapped("failed to generate upload URL", uploadUrl.error))
      ensures parsePrice(req.price).Ok? && uploadUrl.Ok? && cover.Some? && cover.value.Err? ==>
                r == Err(Wrapped("failed to upload cover image", cover.value.error))
      ensures r.Ok? ==>
                parsePrice(req.price).Ok? && uploadUrl.Ok? && r.value.1 == uploadUrl.value && (cover.None? || cover.value.Ok?)
                && entropy.Ok? && r.value.0.shortCode == Shortener.GenerateSecureShortCode(RouteStore.CreateCodeLength, entropy).value
                && |r.value.0.shortCode| == RouteStore.CreateCodeLength
                && var route := NewFileRoute(req, userId, ObjectKey(userId, nanos), parsePrice(req.price).value, CoverUrl(cover));
                   r.value.0 == RouteStore.Created(store.revision, route, old(store.queries.nextId), r.value.0.shortCode, now)
                   && store.queries.rows
                      == old(store.queries.rows)
                         + [PaidRouteQueries.RowOf(old(store.queries.nextId),
                                                   RouteStore.ParamsFor(store.revision, route, r.value.0.shortCode, now))]
      ensures (parsePrice(req.price).Ok? && uploadUrl.Ok? && (cover.None? || cover.value.Ok?) && entropy.Ok? && fault.None?
               && !RouteStore.Taken(old(store.queries.rows),
                                    Shortener.GenerateSecureShortCode(RouteStore.CreateCodeLength, entropy).value)) ==> r.Ok?
    {
      var price := parsePrice(req.price);
      if price.Err? {
        return Err(price.error);
      }
      var key := ObjectKey(userId, nanos);
      if uploadUrl.Err? {
        return Err(Wrapped("failed to generate upload URL", uploadUrl.error));
      }
      var route := NewFileRoute(req, userId, key, price.value, None);
      if cover.Some? {
        if cover.value.Err? {
          return Err(Wrapped("failed to upload cover image", cover.value.error));
        }
        route := route.(coverImageUrl := Some(cover.value.value));
      }
      var created := store.CreateRoute(route, entropy, now, fault);
      if created.Err? {
        return Err(Wrapped("failed to save file route", created.error));
      }
      return Ok((created.value, uploadUrl.value));
    }

    /** IncrementPaymentCount, IncrementAttemptCount and IncrementAccessCount: nil on success, the store's error wrapped otherwise. */
    method IncrementCount(code: string, c: PaidRouteQueries.Counter, now: int, fault: Option<Error>) returns (err: Option<Error>)
      requires store.queries.Valid()
      modifies store.queries
      ensures store.queries.Valid()
      ensures err.None? ==> !PaidRouteQueries.WouldOverflow(old(store.queries.rows), code, c)
                            && store.queries.rows
                               == PaidRouteQueries.IncrementAll(old(store.queries.rows), code, c, RouteStore.UpdatedAt(store.revision, now))
      ensures err.Some? ==> store.queries.rows == old(store.queries.rows)
                            && exists e :: err == Some(CountError(c, code, e))
      ensures err.None? <==> fault.None? && !PaidRouteQueries.WouldOverflow(old(store.queries.rows), code, c)
      ensures fault.Some? ==> err == Some(CountError(c, code, Wrapped(RouteStore.CountContext(c), fault.value)))
    {
      var e := store.IncrementRouteCount(code, c, now, fault);
      if e.Some? {
        return Some(CountError(c, code, e.value));
      }
      return None;
    }

    /**
     * DeleteRoute.  Without a database error it always succeeds: deleting a
     * missing route, or another owner's, is a silent no-op.
     */
    method DeleteRoute(routeId: nat, userId: nat, now: int, fault: Option<Error>) returns (err: Option<Error>)
      requires store.queries.Valid()
      modifies store.queries
      ensures store.queries.Valid()
      ensures fault.None? ==>
                err.None? && store.queries.rows
                             == PaidRouteQueries.SoftDeleteAll(old(store.queries.rows), routeId, userId,
                                                               RouteStore.DeletedAt(store.revision, now))
      ensures fault.None? && store.revision.AsWritten? ==> store.queries.rows == old(store.queries.rows)
      ensures fault.None? && (forall i :: 0 <= i < |old(store.queries.rows)| ==>
                                !(old(store.queries.rows)[i].id == routeId && old(store.queries.rows)[i].userId == userId
                                  && PaidRouteQueries.Live(old(store.queries.rows)[i]))) ==>
                err.None? && store.queries.rows == old(store.queries.rows)
      ensures fault.Some? ==> store.queries.rows == old(store.queries.rows)
      ensures fault.Some? && Is(fault.value, PgxNoRows) ==> err == Some(Sentinel(RouteNoPermission))
      ensures fault.Some? && !Is(fault.value, PgxNoRows) ==> err == Some(DeleteError(fault.value))
    {
      ghost var before := store.queries.rows;
      var e := store.DeleteRoute(routeId, userId, now, fault);
      if e.None? {
        if forall i :: 0 <= i < |before| ==> !(before[i].id == routeId && before[i].userId == userId && PaidRouteQueries.Live(before[i])) {
          PaidRouteQueries.SoftDeleteOfUnownedIsNoOp(before, routeId, userId, RouteStore.DeletedAt(store.revision, now));
        }
      }
      if e.Some? {
        return Some(DeleteError(e.value));
      }
      return None;
    }
  }

  /**
   * In the program the store hands back a route that has lost what the
   * service set: a URL route its "url" resource type, a file route its
   * "file" resource type and file name, both their type and credits.
   */
  lemma AsWrittenRoutesComeBackBare(req: UrlRouteRequest, fileReq: FileRouteRequest, userId: nat, key: string,
                                    price: nat, cover: Option<string>)
    ensures NewUrlRoute(req, userId, price, cover).resourceType == "url"
    ensures RouteStore.Bare(RouteStore.Kept(RouteStore.AsWritten, NewUrlRoute(req, userId, price, cover)))
    ensures NewFileRoute(fileReq, userId, key, price, cover).resourceType == "file"
    ensures NewFileRoute(fileReq, userId, key, price, cover).originalFilename.Some?
    ensures RouteStore.Bare(RouteStore.Kept(RouteStore.AsWritten, NewFileRoute(fileReq, userId, key, price, cover)))
  {
  }

  /** The file route always carries its object key, GET, type "file" and protocol V2, whatever the request says. */
  lemma FileRouteShape(req: FileRouteRequest, userId: nat, nanos: int, price: nat, cover: Option<string>)
    ensures var r := NewFileRoute(req, userId, ObjectKey(userId, nanos), price, cover);
            r.httpMethod == "GET" && r.resourceType == "file" && r.paymentProtocolVersion == PaymentProtocolVersionV2
            && r.targetUrl == ObjectKey(userId, nanos) && r.originalFilename == Some(req.originalFilename)
            && r.isEnabled && r.price == price && r.credits == req.credits && r.routeType == req.routeType
            && (r.title.Some? <==> req.title != "") && (r.description.Some? <==> req.description != "")
  {
  }

  /** A URL route carries the upper-cased method, type "url", protocol V2 and the request's type and credits. */
  lemma UrlRouteShape(req: UrlRouteRequest, userId: nat, price: nat, cover: Option<string>)
    ensures var r := NewUrlRoute(req, userId, price, cover);
            r.httpMethod == ToUpper(req.httpMethod) && r.resourceType == "url"
            && r.paymentProtocolVersion == PaymentProtocolVersionV2 && r.isEnabled && r.targetUrl == req.targetUrl
            && r.price == price && r.credits == req.credits && r.routeType == req.routeType && r.isTest == req.isTest
            && (r.title.Some? <==> req.title != "") && (r.description.Some? <==> req.description != "")
  {
  }
}
