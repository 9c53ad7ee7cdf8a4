/**
 * routes/handler.go: the gate in front of every /:shortCode request.  The
 * route is looked up and its method checked; a payment header that names a
 * purchase with a credit left is spent; otherwise a new payment runs (the
 * version 1 x402 gate, or the version 2 library), a purchase is recorded
 * and the counters are bumped; only then is the resource handed out.
 *
 * The counters live in the route table (PaidRouteQueries); the purchases
 * and the credits spent on them live in a ledger whose store is not part of
 * this model, so its two operations are stand-ins that either append or
 * fail.  Everything outside the process (the database faults, the user
 * lookup, the facilitator, the version 2 library, the presigner, the clock)
 * arrives as an input.
 */
module Gate {
  import opened Wrappers
  import opened Errors
  import opened Gin
  import opened Routes
  import Text
  import Base64
  import X402
  import Users
  import Purchases
  import RouteService
  import RouteStore
  import PaidRouteQueries

  /** getRoutePaymentVersion: a route stored before versions existed (0) speaks version 1. */
  function RoutePaymentVersion(route: PaidRoute): (v: nat)
    ensures v != 0
    ensures route.paymentProtocolVersion == 0 ==> v == PaymentProtocolVersionV1
    ensures route.paymentProtocolVersion != 0 ==> v == route.paymentProtocolVersion
  {
    if route.paymentProtocolVersion == 0 then PaymentProtocolVersionV1 else route.paymentProtocolVersion
  }

  /** getPaymentHeaderNameForVersion. */
  function PaymentHeaderNameForVersion(version: nat): (name: string)
    ensures name == "PAYMENT-SIGNATURE" <==> version == PaymentProtocolVersionV2
    ensures version != PaymentProtocolVersionV2 ==> name == "X-Payment"
  {
    if version == PaymentProtocolVersionV2 then "PAYMENT-SIGNATURE" else "X-Payment"
  }

  /** getPaymentHeaderNameForRoute. */
  function PaymentHeaderName(route: PaidRoute): (name: string)
    ensures name == "PAYMENT-SIGNATURE" <==> route.paymentProtocolVersion == PaymentProtocolVersionV2
    ensures name != "PAYMENT-SIGNATURE" ==> name == "X-Payment"
    ensures route.paymentProtocolVersion == 0 ==> name == "X-Payment"
  {
    PaymentHeaderNameForVersion(RoutePaymentVersion(route))
  }

  /** getRequestScheme: https behind a proxy that says so, or over TLS. */
  function RequestScheme(c: Context): (s: string)
    ensures s == "https" || s == "http"
    ensures s == "https" <==> c.GetHeader("X-Forwarded-Proto") == "https" || c.tls
  {
    if c.GetHeader("X-Forwarded-Proto") == "https" then "https" else if c.tls then "https" else "http"
  }

  /** The public URL of the route: scheme://host/shortCode. */
  function AccessUrl(c: Context, route: PaidRoute): (u: string)
    ensures Text.HasPrefix(u, RequestScheme(c) + "://") && u != ""
    ensures |u| > |route.shortCode| && u[|u| - |route.shortCode| - 1..] == "/" + route.shortCode
  {
    var prefix := RequestScheme(c) + "://";
    var head := prefix + c.host;
    var tail := "/" + route.shortCode;
    var u := head + tail;
    assert head[..|prefix|] == prefix;
    assert u[..|head|] == head && u[|head|..] == tail;
    u
  }

  const RouteNotFoundMessage := "Route not found or is disabled."
  const RouteLookupFailedMessage := "Error retrieving route configuration."
  const BadRoutePriceMessage := "Internal configuration error for route price."
  const UserLookupFailedMessage := "Internal server error processing request for payment."
  const SaveFailedMessage := "Internal server error after payment."
  const PaymentCountFailedMessage := "Internal server error after processing payment counts."
  const UnsupportedVersionMessage := "Unsupported payment protocol version"
  const DownloadFailedMessage := "Failed to generate download link"
  const BadTargetMessage := "Internal configuration error for route target."
  const InitFailedMessage := "Unable to initialize payment server"
  const UnexpectedResponseMessage := "Unexpected payment response"
  const InvalidPaywallMessage := "Invalid paywall response"
  const NoPaymentRequiredMessage := "Internal payment configuration error"
  const UnknownResultMessage := "Internal payment processing error"
  const IncompleteVerificationMessage := "Internal payment verification error"

  function MethodNotAllowedMessage(requested: string, allowed: string): string
  {
    "Method " + requested + " not allowed for this route. Allowed: " + allowed
  }

  /** string([]byte): one character per byte. */
  function AsText(b: seq<Base64.Byte>): (s: string)
    ensures |s| == |b| && forall i :: 0 <= i < |b| ==> s[i] as int == b[i]
  {
    seq(|b|, i requires 0 <= i < |b| => b[i] as char)
  }

  /** The purchase savePurchaseRecordJSON builds: one credit already spent on this very request. */
  function PurchaseRecord(route: PaidRoute, address: string, payload: seq<Base64.Byte>, settleJson: seq<Base64.Byte>,
                          header: string): (p: Purchases.Purchase)
    ensures p.creditsUsed == 1 && p.creditsAvailable == route.credits
    ensures p.paymentHeader == header && p.paidToAddress == address && p.paidRouteId == route.id
    ensures p.shortCode == route.shortCode && p.targetUrl == route.targetUrl && p.httpMethod == route.httpMethod
    ensures p.price == route.price && p.routeType == route.routeType && p.isTest == route.isTest
    ensures p.paymentPayload == AsText(payload) && p.settleResponse == AsText(settleJson)
  {
    Purchases.Purchase(0, route.shortCode, route.targetUrl, route.httpMethod, route.price, route.routeType,
                       route.credits, 1, route.isTest, route.id, address, header, AsText(payload), AsText(settleJson), 0, 0)
  }

  /** The conditions under which tryExistingPayment may spend a credit (before the ledger update). */
  predicate CreditAvailable(header: string, existing: Result<Option<Purchases.Purchase>, Error>)
  {
    header != "" && existing.Ok? && existing.value.Some?
    && existing.value.value.creditsUsed < existing.value.value.creditsAvailable
  }

  /** A purchase of a route with a single credit has nothing left to reuse: the same header buys again. */
  lemma SingleCreditIsSpentAtPurchase(route: PaidRoute, address: string, payload: seq<Base64.Byte>,
                                      settleJson: seq<Base64.Byte>, header: string)
    requires route.credits <= 1
    ensures !CreditAvailable(header, Ok(Some(PurchaseRecord(route, address, payload, settleJson, header))))
  {
  }

  /** A route with n credits leaves n - 1 of them for later requests with the same header. */
  lemma MultiCreditLeavesTheRest(route: PaidRoute, address: string, payload: seq<Base64.Byte>,
                                 settleJson: seq<Base64.Byte>, header: string)
    requires route.credits >= 2 && header != ""
    ensures CreditAvailable(header, Ok(Some(PurchaseRecord(route, address, payload, settleJson, header))))
    ensures PurchaseRecord(route, address, payload, settleJson, header).creditsAvailable
            - PurchaseRecord(route, address, payload, settleJson, header).creditsUsed == route.credits - 1
  {
  }

  /**
   * The store as written hands the gate only bare routes, with no credits;
   * every purchase the program records is then spent on the request that
   * made it, and a payment header never buys a second access.
   */
  lemma BareRoutePurchaseIsSpent(route: PaidRoute, address: string, payload: seq<Base64.Byte>,
                                 settleJson: seq<Base64.Byte>, header: string)
    requires RouteStore.Bare(route)
    ensures !CreditAvailable(header, Ok(Some(PurchaseRecord(route, address, payload, settleJson, header))))
  {
    SingleCreditIsSpentAtPurchase(route, address, payload, settleJson, header);
  }

  /** The table after an increment whose error the caller ignores: bumped when it succeeds, as it was otherwise. */
  ghost function Counted(rows: seq<PaidRouteQueries.Row>, code: string, c: PaidRouteQueries.Counter, stamp: int,
                         fault: Option<Error>): seq<PaidRouteQueries.Row>
  {
    if fault.None? && !PaidRouteQueries.WouldOverflow(rows, code, c) then PaidRouteQueries.IncrementAll(rows, code, c, stamp)
    else rows
  }

  /**
   * The purchases and the credits spent on them.  Its store is not part of
   * this model: creating a purchase and spending a credit either happen or
   * fail with the given error.
   */
  class Ledger {
    var records: seq<Purchases.Purchase>
    var creditUses: seq<nat>

    constructor()
      ensures records == [] && creditUses == []
    {
      records := [];
      creditUses := [];
    }

    /** PurchaseService.CreatePurchase. */
    method CreatePurchase(p: Purchases.Purchase, fault: Option<Error>) returns (err: Option<Error>)
      modifies this
      ensures err == fault
      ensures records == old(records) + (if fault.None? then [p] else [])
      ensures creditUses == old(creditUses)
    {
      if fault.Some? {
        return fault;
      }
      records := records + [p];
      return None;
    }

    /** PurchaseService.IncrementCreditsUsed. */
    method IncrementCreditsUsed(id: nat, fault: Option<Error>) returns (err: Option<Error>)
      modifies this
      ensures err == fault
      ensures creditUses == old(creditUses) + (if fault.None? then [id] else [])
      ensures records == old(records)
    {
      if fault.Some? {
        return fault;
      }
      creditUses := creditUses + [id];
      return None;
    }
  }

  /** The handler's configuration. */
  datatype Config = Config(paymentAddress: string, facilitatorUrl: string, maxTimeoutSeconds: int)

  /** What the version 1 facilitator and the payload decoders answer. */
  datatype V1Facilitator = V1Facilitator(
    detectVersion: seq<Base64.Byte> -> Option<int>,
    parses: seq<Base64.Byte> -> bool,
    verify: X402.VerifyOutcome,
    settle: X402.SettleOutcome)

  /** A version 2 response body: none, a string, or another JSON value. */
  datatype V2Body = NoBody | TextBody(text: string) | JsonBody(json: Json)

  datatype V2Response = V2Response(status: int, headers: seq<(string, string)>, isHtml: bool, body: V2Body)

  /** ProcessHTTPRequest's result; `complete` says whether the payload and the requirements came with it. */
  datatype ProcessResult =
    | PaymentError(response: Option<V2Response>)
    | PaymentVerified(payload: seq<Base64.Byte>, complete: bool)
    | NoPaymentRequired
    | UnknownResult

  /** What the version 2 library answers: the server's start-up, the request, the settlement (its response JSON). */
  datatype V2Library = V2Library(initFault: Option<Error>, result: ProcessResult, settle: Result<seq<Base64.Byte>, Error>)

  /** Everything the gate learns from outside the process while serving one request. */
  datatype Outside = Outside(
    lookupFault: Option<Error>,
    existing: Result<Option<Purchases.Purchase>, Error>,
    creditFault: Option<Error>,
    priceParses: bool,
    user: Result<Users.User, Error>,
    v1: V1Facilitator,
    v2: V2Library,
    saveFault: Option<Error>,
    attemptFault: Option<Error>,
    paymentFault: Option<Error>,
    accessFault: Option<Error>,
    download: Result<string, Error>,
    targetParses: bool,
    now: int)

  /** The payment address: the route owner's, or the configured one when the owner has none. */
  function PayTo(config: Config, user: Users.User): string
  {
    if user.paymentAddress != "" then user.paymentAddress else config.paymentAddress
  }

  /** The options executeNewPaymentFlowV1 hands the version 1 gate. */
  function V1Options(config: Config, route: PaidRoute, accessUrl: string): seq<X402.Setter>
  {
    [X402.WithFacilitatorUrl(config.facilitatorUrl),
     X402.WithDescription("Payment for " + route.httpMethod + " " + accessUrl),
     X402.WithResource(accessUrl),
     X402.WithTestnet(route.isTest),
     X402.WithMaxTimeoutSeconds(config.maxTimeoutSeconds)]
  }

  /** The requirements the version 1 gate announces for a route: its price, its network, its public URL. */
  lemma V1RequirementsDescribeTheRoute(config: Config, route: PaidRoute, c: Context, address: string)
    ensures var r := X402.BuildRequirements(X402.Applied(V1Options(config, route, AccessUrl(c, route))), route.price,
                                            address, c.path);
            r.resource == AccessUrl(c, route) && r.payTo == address && r.maxTimeoutSeconds == config.maxTimeoutSeconds
            && (r.network == X402.TestnetNetwork <==> route.isTest)
            && Text.DecimalValue(r.maxAmountRequired) == route.price
  {
    var accessUrl := AccessUrl(c, route);
    var o := V1Options(config, route, accessUrl);
    assert o[..1][..0] == [] && o[..2][..1] == o[..1] && o[..3][..2] == o[..2];
    assert o[..4][..3] == o[..3] && o[..5][..4] == o[..4] && o[..5] == o;
    var a3 := X402.Applied(o[..3]);
    assert a3.resource == accessUrl;
    var a4 := X402.Applied(o[..4]);
    assert a4 == X402.Set(a3, X402.WithTestnet(route.isTest));
    assert X402.Applied(o) == X402.Set(a4, X402.WithMaxTimeoutSeconds(config.maxTimeoutSeconds));
  }

  /** A version 2 header loop: each (key, value) written in order. */
  function WithHeaders(r: Response, headers: seq<(string, string)>): Response
  {
    if headers == [] then r else WithHeader(WithHeaders(r, headers[..|headers| - 1]), headers[|headers| - 1].0, headers[|headers| - 1].1)
  }

  /**
   * What the client receives for a version 2 PaymentError response: the
   * library's headers, then its body as HTML, as a bare status or as JSON;
   * an HTML body that is not text is a 500 instead.
   */
  function V2ErrorResponse(r: Response, response: V2Response): Response
  {
    var headed := WithHeaders(r, response.headers);
    if response.isHtml then
      if response.body.TextBody? then Rendered(headed, response.status, DataRender("text/html; charset=utf-8", response.body.text))
      else Rendered(headed, StatusInternalServerError, JsonRender(ErrorBody(InvalidPaywallMessage)))
    else match response.body
      case NoBody => WriteHeader(headed, response.status)
      case TextBody(text) => Rendered(headed, response.status, JsonRender(JString(text)))
      case JsonBody(json) => Rendered(headed, response.status, JsonRender(json))
  }

  /**
   * On a fresh response the client sees the library's own status whenever
   * the body can be rendered, and 500 for a non-text HTML body; the headers
   * the library set are there either way.
   */
  lemma V2ErrorStatus(r: Response, response: V2Response)
    requires !r.written && response.status > 0
    ensures (!response.isHtml || response.body.TextBody?) ==> V2ErrorResponse(r, response).status == response.status
    ensures response.isHtml && !response.body.TextBody? ==> V2ErrorResponse(r, response).status == StatusInternalServerError
    ensures V2ErrorResponse(r, response).headers == WithHeaders(r, response.headers).headers
  {
    WithHeadersKeepsWritten(r, response.headers);
  }

  lemma {:induction false} WithHeadersKeepsWritten(r: Response, headers: seq<(string, string)>)
    ensures WithHeaders(r, headers) == r.(headers := WithHeaders(r, headers).headers)
    decreases |headers|
  {
    if headers != [] {
      WithHeadersKeepsWritten(r, headers[..|headers| - 1]);
    }
  }

  /**
   * The response once the version 1 gate has accepted a payment: the
   * paywall's template keys, then the Payment-Protocol header and the
   * base64 settle response in X-PAYMENT-RESPONSE.
   */
  function V1Accepted(r: Response, route: PaidRoute, settleJson: seq<Base64.Byte>): Response
  {
    WithHeader(WithHeader(r.(keys := TemplateKeys(r.keys, route)), "Payment-Protocol", "X402"),
               "X-PAYMENT-RESPONSE", Base64.Encode(Base64.Standard, settleJson))
  }

  /** The version 2 library gets to decide: the owner was found and the payment server started. */
  predicate V2Decides(outside: Outside)
  {
    Users.GetUserById(outside.user).Ok? && outside.v2.initFault.None?
  }

  /** The keys SetTemplateKeys stores: ResourceType always, each optional field only when the route has it. */
  function TemplateKeys(keys: map<string, Json>, route: PaidRoute): (k: map<string, Json>)
    ensures "ResourceType" in k && k["ResourceType"] == JString(route.resourceType)
    ensures route.title.Some? ==> "Title" in k && k["Title"] == JString(route.title.value)
    ensures route.description.Some? ==> "Description" in k && k["Description"] == JString(route.description.value)
    ensures route.coverImageUrl.Some? ==> "CoverURL" in k && k["CoverURL"] == JString(route.coverImageUrl.value)
    ensures route.resourceType == "file" && route.originalFilename.Some? ==>
              "OriginalFilename" in k && k["OriginalFilename"] == JString(route.originalFilename.value)
    ensures forall key :: key !in {"ResourceType", "OriginalFilename", "Title", "Description", "CoverURL"} ==>
              (key in k <==> key in keys) && (key in keys ==> k[key] == keys[key])
  {
    var k1 := keys["ResourceType" := JString(route.resourceType)];
    var k2 := if route.resourceType == "file" && route.originalFilename.Some?
              then k1["OriginalFilename" := JString(route.originalFilename.value)] else k1;
    var k3 := if route.title.Some? then k2["Title" := JString(route.title.value)] else k2;
    var k4 := if route.description.Some? then k3["Description" := JString(route.description.value)] else k3;
    if route.coverImageUrl.Some? then k4["CoverURL" := JString(route.coverImageUrl.value)] else k4
  }

  /** What the gate handed out. */
  datatype Served = NotServed | DownloadLink(url: string) | ReverseProxied(target: string)

  /** proxyRequest's test: a file route, or a target without a scheme separator (an object key). */
  predicate IsFileRoute(route: PaidRoute)
  {
    route.resourceType == "file" || !Text.Contains(route.targetUrl, "://")
  }

  /** The file name shown with a download: the original name, or the object key when it is missing. */
  function DownloadName(route: PaidRoute): string
  {
    if route.originalFilename.Some? then route.originalFilename.value else route.targetUrl
  }

  function DownloadBody(url: string, name: string): Json
  {
    JObject([("download_url", JString(url)), ("filename", JString(name))])
  }

  class Handler {
    const service: RouteService.Service
    const ledger: Ledger
    const config: Config

    constructor(service: RouteService.Service, ledger: Ledger, config: Config)
      ensures this.service == service && this.ledger == ledger && this.config == config
    {
      this.service := service;
      this.ledger := ledger;
      this.config := config;
    }

    ghost predicate Valid()
      reads service.store.queries
    {
      service.store.queries.Valid()
    }

    /** The updated_at the store's counter updates write at clock reading `now`. */
    function Stamp(now: int): int
    {
      RouteStore.UpdatedAt(service.store.revision, now)
    }

    /** Whether the payment counter moves once the purchase is saved. */
    ghost predicate PaymentCounted(rows: seq<PaidRouteQueries.Row>, route: PaidRoute, outside: Outside)
    {
      outside.paymentFault.None? && !PaidRouteQueries.WouldOverflow(rows, route.shortCode, PaidRouteQueries.Payment)
    }

    /** The route table after RecordPayment: both counters move only when the purchase is saved and counted. */
    ghost function RecordedRows(rows: seq<PaidRouteQueries.Row>, route: PaidRoute, outside: Outside): seq<PaidRouteQueries.Row>
    {
      if outside.saveFault.None? && PaymentCounted(rows, route, outside)
      then Counted(PaidRouteQueries.IncrementAll(rows, route.shortCode, PaidRouteQueries.Payment, Stamp(outside.now)),
                   route.shortCode, PaidRouteQueries.Access, Stamp(outside.now), outside.accessFault)
      else rows
    }

    /** The response after RecordPayment: untouched on success, a 500 when saving or counting fails. */
    ghost function RecordedResponse(r: Response, rows: seq<PaidRouteQueries.Row>, route: PaidRoute, outside: Outside): Response
    {
      if outside.saveFault.Some? then Rendered(r, StatusInternalServerError, JsonRender(ErrorBody(SaveFailedMessage)))
      else if PaymentCounted(rows, route, outside) then r
      else Rendered(r, StatusInternalServerError, JsonRender(ErrorBody(PaymentCountFailedMessage)))
    }

    /** The route table, counters included. */
    function Rows(): seq<PaidRouteQueries.Row>
      reads service.store.queries
    {
      service.store.queries.rows
    }

    /** The lookup getAndValidateRoute makes. */
    function Lookup(c: Context, fault: Option<Error>): Result<PaidRoute, Error>
      reads service.store.queries
    {
      service.store.FindEnabledRouteByShortCode(c.Param("shortCode"), fault)
    }

    /**
     * getAndValidateRoute: 404 (section 15.5.5 of RFC 9110) when no enabled
     * route has the code, 500 on any other lookup error, 405 (section 15.5.6)
     * when the request method is not exactly the route's.
     */
    method GetAndValidateRoute(c: Context, fault: Option<Error>) returns (route: Option<PaidRoute>)
      modifies c
      ensures var found := Lookup(c, fault);
              (found.Err? && Is(found.error, RouteNotFound) ==>
                 route.None? && c.Snapshot() == Rendered(old(c.Snapshot()), StatusNotFound, JsonRender(ErrorBody(RouteNotFoundMessage))))
              && (found.Err? && !Is(found.error, RouteNotFound) ==>
                    route.None? && c.Snapshot() == Rendered(old(c.Snapshot()), StatusInternalServerError,
                                                            JsonRender(ErrorBody(RouteLookupFailedMessage))))
              && (found.Ok? && c.requestMethod != found.value.httpMethod ==>
                    route.None? && c.Snapshot() == Rendered(old(c.Snapshot()), StatusMethodNotAllowed,
                                                            JsonRender(ErrorBody(MethodNotAllowedMessage(c.requestMethod, found.value.httpMethod)))))
              && (found.Ok? && c.requestMethod == found.value.httpMethod ==>
                    route == Some(found.value) && c.Snapshot() == old(c.Snapshot()))
      ensures route.Some? ==>
                route.value.shortCode == c.Param("shortCode") && route.value.isEnabled && route.value.deletedAt.None?
                && route.value.httpMethod == c.requestMethod
      ensures service.store.revision.AsWritten? && route.Some? ==> RouteStore.Bare(route.value)
    {
      var found := service.store.FindEnabledRouteByShortCode(c.Param("shortCode"), fault);
      if found.Err? {
        if Is(found.error, RouteNotFound) {
          c.JSON(StatusNotFound, ErrorBody(RouteNotFoundMessage));
        } else {
          c.JSON(StatusInternalServerError, ErrorBody(RouteLookupFailedMessage));
        }
        return None;
      }
      if c.requestMethod != found.value.httpMethod {
        c.JSON(StatusMethodNotAllowed, ErrorBody(MethodNotAllowedMessage(c.requestMethod, found.value.httpMethod)));
        return None;
      }
      return Some(found.value);
    }

    /**
     * tryExistingPayment: exactly one of "a credit was spent" and "run a new
     * payment".  A credit is spent only when the header is present, names a
     * purchase with a credit left and the ledger takes the spend; the access
     * counter's own failure does not change the answer.
     */
    method TryExistingPayment(c: Context, route: PaidRoute, existing: Result<Option<Purchases.Purchase>, Error>,
                              creditFault: Option<Error>, accessFault: Option<Error>, now: int)
      returns (used: bool, proceed: bool)
      requires Valid()
      modifies ledger, service.store.queries
      ensures Valid()
      ensures proceed == !used
      ensures used <==> CreditAvailable(c.GetHeader(PaymentHeaderName(route)), existing) && creditFault.None?
      ensures ledger.records == old(ledger.records)
      ensures ledger.creditUses == old(ledger.creditUses) + (if used then [existing.value.value.id] else [])
      ensures Rows() == if used then Counted(old(Rows()), route.shortCode, PaidRouteQueries.Access, Stamp(now), accessFault)
                        else old(Rows())
    {
      var header := c.GetHeader(PaymentHeaderName(route));
      if header == "" {
        return false, true;
      }
      if existing.Err? {
        return false, true;
      }
      if existing.value.None? {
        return false, true;
      }
      var purchase := existing.value.value;
      if purchase.creditsUsed >= purchase.creditsAvailable {
        return false, true;
      }
      var err := ledger.IncrementCreditsUsed(purchase.id, creditFault);
      if err.Some? {
        return false, true;
      }
      var _ := service.IncrementCount(route.shortCode, PaidRouteQueries.Access, now, accessFault);
      return true, false;
    }

    /** savePurchaseRecordJSON: the record, or the ledger's error wrapped. */
    method SavePurchaseRecord(route: PaidRoute, address: string, payload: seq<Base64.Byte>, settleJson: seq<Base64.Byte>,
                              header: string, fault: Option<Error>) returns (err: Option<Error>)
      modifies ledger
      ensures err.None? <==> fault.None?
      ensures fault.Some? ==> err == Some(Wrapped("failed to save purchase record", fault.value))
      ensures ledger.records == old(ledger.records) + (if fault.None? then [PurchaseRecord(route, address, payload, settleJson, header)] else [])
      ensures ledger.creditUses == old(ledger.creditUses)
    {
      var purchase := PurchaseRecord(route, address, payload, settleJson, header);
      var e := ledger.CreatePurchase(purchase, fault);
      if e.Some? {
        return Some(Wrapped("failed to save purchase record", e.value));
      }
      return None;
    }

    /**
     * The bookkeeping after a payment went through, common to both protocol
     * versions: the record, then the payment counter (its failure is a 500
     * after the payment), then the access counter (its failure ignored).
     */
    method RecordPayment(c: Context, route: PaidRoute, address: string, payload: seq<Base64.Byte>,
                         settleJson: seq<Base64.Byte>, outside: Outside)
      returns (processed: bool, handled: bool)
      requires Valid()
      modifies c, ledger, service.store.queries
      ensures Valid()
      ensures ledger.creditUses == old(ledger.creditUses)
      ensures var record := PurchaseRecord(route, address, payload, settleJson, c.GetHeader(PaymentHeaderName(route)));
              ledger.records == old(ledger.records) + (if outside.saveFault.None? then [record] else [])
      ensures processed <==> outside.saveFault.None?
      ensures handled <==> outside.saveFault.Some? || !PaymentCounted(old(Rows()), route, outside)
      ensures Rows() == RecordedRows(old(Rows()), route, outside)
      ensures c.Snapshot() == RecordedResponse(old(c.Snapshot()), old(Rows()), route, outside)
      ensures outside.saveFault.Some? ==>
                handled && Rows() == old(Rows())
                && c.Snapshot() == Rendered(old(c.Snapshot()), StatusInternalServerError, JsonRender(ErrorBody(SaveFailedMessage)))
      ensures outside.saveFault.None? ==>
                var counted := outside.paymentFault.None?
                               && !PaidRouteQueries.WouldOverflow(old(Rows()), route.shortCode, PaidRouteQueries.Payment);
                (handled <==> !counted)
                && (counted ==>
                      Rows() == Counted(PaidRouteQueries.IncrementAll(old(Rows()), route.shortCode, PaidRouteQueries.Payment, Stamp(outside.now)),
                                        route.shortCode, PaidRouteQueries.Access, Stamp(outside.now), outside.accessFault)
                      && c.Snapshot() == old(c.Snapshot()))
                && (!counted ==>
                      Rows() == old(Rows())
                      && c.Snapshot() == Rendered(old(c.Snapshot()), StatusInternalServerError,
                                                  JsonRender(ErrorBody(PaymentCountFailedMessage))))
    {
      var header := c.GetHeader(PaymentHeaderName(route));
      var err := SavePurchaseRecord(route, address, payload, settleJson, header, outside.saveFault);
      if err.Some? {
        c.JSON(StatusInternalServerError, ErrorBody(SaveFailedMessage));
        return false, true;
      }
      err := service.IncrementCount(route.shortCode, PaidRouteQueries.Payment, outside.now, outside.paymentFault);
      if err.Some? {
        c.JSON(StatusInternalServerError, ErrorBody(PaymentCountFailedMessage));
        return true, true;
      }
      var _ := service.IncrementCount(route.shortCode, PaidRouteQueries.Access, outside.now, outside.accessFault);
      return true, false;
    }

    /** The values the paywall page reads: the resource type, and the file name and page metadata the route has. */
    method SetTemplateKeys(c: Context, route: PaidRoute)
      modifies c
      ensures c.Snapshot() == old(c.Snapshot()).(keys := TemplateKeys(old(c.keys), route))
    {
      c.Set("ResourceType", JString(route.resourceType));
      if route.resourceType == "file" && route.originalFilename.Some? {
        c.Set("OriginalFilename", JString(route.originalFilename.value));
      }
      if route.title.Some? {
        c.Set("Title", JString(route.title.value));
      }
      if route.description.Some? {
        c.Set("Description", JString(route.description.value));
      }
      if route.coverImageUrl.Some? {
        c.Set("CoverURL", JString(route.coverImageUrl.value));
      }
    }

    /** The version 1 gate's verdict on this request. */
    function V1Verdict(c: Context, outside: Outside): X402.Verdict
    {
      X402.Ladder(c.GetHeader("X-PAYMENT"), outside.v1.detectVersion, outside.v1.parses, outside.v1.verify, outside.v1.settle)
    }

    /**
     * executeNewPaymentFlowV1.  A payment counts only when the version 1
     * gate accepts it; a rejection leaves no purchase and bumps the attempt
     * counter exactly when the response status is 402 (section 15.5.3 of
     * RFC 9110).
     */
    method NewPaymentFlowV1(c: Context, route: PaidRoute, outside: Outside) returns (processed: bool, handled: bool)
      requires Valid()
      modifies c, ledger, service.store.queries
      ensures Valid()
      ensures ledger.creditUses == old(ledger.creditUses)
      ensures !outside.priceParses ==>
                !processed && handled && ledger.records == old(ledger.records) && Rows() == old(Rows())
                && c.Snapshot() == Rendered(old(c.Snapshot()), StatusInternalServerError, JsonRender(ErrorBody(BadRoutePriceMessage)))
      ensures outside.priceParses && Users.GetUserById(outside.user).Err? ==>
                !processed && handled && ledger.records == old(ledger.records) && Rows() == old(Rows())
                && c.Snapshot() == Rendered(old(c.Snapshot()), StatusInternalServerError, JsonRender(ErrorBody(UserLookupFailedMessage)))
      ensures outside.priceParses && Users.GetUserById(outside.user).Ok? && (V1Verdict(c, outside).Reject? || old(c.aborted)) ==>
                !processed && handled && ledger.records == old(ledger.records) && c.aborted
                && Rows() == if c.status == StatusPaymentRequired
                             then Counted(old(Rows()), route.shortCode, PaidRouteQueries.Attempt, Stamp(outside.now), outside.attemptFault)
                             else old(Rows())
      ensures outside.priceParses && Users.GetUserById(outside.user).Ok? && V1Verdict(c, outside).Accept? && !old(c.aborted) ==>
                var verdict := V1Verdict(c, outside);
                var record := PurchaseRecord(route, PayTo(config, Users.GetUserById(outside.user).value), verdict.payload,
                                             verdict.settleJson, c.GetHeader(PaymentHeaderName(route)));
                ledger.records == old(ledger.records) + (if outside.saveFault.None? then [record] else [])
                && (processed <==> outside.saveFault.None?)
                && (handled <==> outside.saveFault.Some? || !PaymentCounted(old(Rows()), route, outside))
                && Rows() == RecordedRows(old(Rows()), route, outside)
                && c.Snapshot() == RecordedResponse(V1Accepted(old(c.Snapshot()), route, verdict.settleJson), old(Rows()), route, outside)
      ensures processed ==> |ledger.records| == |old(ledger.records)| + 1
      ensures !processed ==> ledger.records == old(ledger.records) && handled
    {
      if !outside.priceParses {
        c.JSON(StatusInternalServerError, ErrorBody(BadRoutePriceMessage));
        return false, true;
      }
      var accessUrl := AccessUrl(c, route);
      var user := Users.GetUserById(outside.user);
      if user.Err? {
        c.JSON(StatusInternalServerError, ErrorBody(UserLookupFailedMessage));
        return false, true;
      }
      var address := config.paymentAddress;
      if user.value.paymentAddress != "" {
        address := user.value.paymentAddress;
      }
      SetTemplateKeys(c, route);
      var paid := X402.Payment(c, route.price, address, V1Options(config, route, accessUrl), outside.v1.detectVersion,
                               outside.v1.parses, outside.v1.verify, outside.v1.settle);
      processed, handled := AfterV1Gate(c, route, address, paid, outside);
    }

    /**
     * What executeNewPaymentFlowV1 does once the version 1 gate has answered:
     * an aborted context is a refusal (an attempt when its status is 402),
     * otherwise the payment the gate accepted is recorded.
     */
    method AfterV1Gate(c: Context, route: PaidRoute, address: string, paid: Option<(seq<Base64.Byte>, seq<Base64.Byte>)>,
                       outside: Outside) returns (processed: bool, handled: bool)
      requires Valid()
      requires c.aborted || paid.Some?
      modifies c, ledger, service.store.queries
      ensures Valid()
      ensures ledger.creditUses == old(ledger.creditUses)
      ensures old(c.aborted) ==>
                !processed && handled && ledger.records == old(ledger.records) && c.Snapshot() == old(c.Snapshot())
                && Rows() == if c.status == StatusPaymentRequired
                             then Counted(old(Rows()), route.shortCode, PaidRouteQueries.Attempt, Stamp(outside.now), outside.attemptFault)
                             else old(Rows())
      ensures !old(c.aborted) ==>
                var record := PurchaseRecord(route, address, paid.value.0, paid.value.1, c.GetHeader(PaymentHeaderName(route)));
                ledger.records == old(ledger.records) + (if outside.saveFault.None? then [record] else [])
                && (processed <==> outside.saveFault.None?)
                && (handled <==> outside.saveFault.Some? || !PaymentCounted(old(Rows()), route, outside))
                && Rows() == RecordedRows(old(Rows()), route, outside)
                && c.Snapshot() == RecordedResponse(old(c.Snapshot()), old(Rows()), route, outside)
      ensures !processed ==> ledger.records == old(ledger.records) && handled
    {
      if c.aborted {
        if c.status == StatusPaymentRequired {
          var _ := service.IncrementCount(route.shortCode, PaidRouteQueries.Attempt, outside.now, outside.attemptFault);
        }
        return false, true;
      }
      processed, handled := RecordPayment(c, route, address, paid.value.0, paid.value.1, outside);
    }

    /** How executeNewPaymentFlowV2 answers a PaymentError result. */
    method RespondV2Error(c: Context, response: V2Response) returns (ok: bool)
      modifies c
      ensures ok <==> !response.isHtml || response.body.TextBody?
      ensures c.Snapshot() == V2ErrorResponse(old(c.Snapshot()), response)
      ensures !ok ==>
                c.Snapshot() == Rendered(WithHeaders(old(c.Snapshot()), response.headers), StatusInternalServerError,
                                         JsonRender(ErrorBody(InvalidPaywallMessage)))
      ensures ok && response.isHtml ==>
                c.Snapshot() == Rendered(WithHeaders(old(c.Snapshot()), response.headers), response.status,
                                         DataRender("text/html; charset=utf-8", response.body.text))
      ensures ok && !response.isHtml && response.body.NoBody? ==>
                c.Snapshot() == WriteHeader(WithHeaders(old(c.Snapshot()), response.headers), response.status)
      ensures ok && !response.isHtml && response.body.TextBody? ==>
                c.Snapshot() == Rendered(WithHeaders(old(c.Snapshot()), response.headers), response.status,
                                         JsonRender(JString(response.body.text)))
      ensures ok && !response.isHtml && response.body.JsonBody? ==>
                c.Snapshot() == Rendered(WithHeaders(old(c.Snapshot()), response.headers), response.status,
                                         JsonRender(response.body.json))
    {
      for i := 0 to |response.headers|
        invariant c.Snapshot() == WithHeaders(old(c.Snapshot()), response.headers[..i])
      {
        assert response.headers[..i + 1][..i] == response.headers[..i];
        c.Header(response.headers[i].0, response.headers[i].1);
      }
      assert response.headers[..|response.headers|] == response.headers;
      if response.isHtml {
        if !response.body.TextBody? {
          c.JSON(StatusInternalServerError, ErrorBody(InvalidPaywallMessage));
          return false;
        }
        c.Data(response.status, "text/html; charset=utf-8", response.body.text);
      } else if response.body.NoBody? {
        c.Status(response.status);
      } else if response.body.TextBody? {
        c.JSON(response.status, JString(response.body.text));
      } else {
        c.JSON(response.status, response.body.json);
      }
      return true;
    }

    /**
     * executeNewPaymentFlowV2.  The version 2 library decides; only a
     * verified payment that then settles is recorded, with the settlement
     * in the PAYMENT-RESPONSE header; a library response of 402 bumps the
     * attempt counter.
     */
    method NewPaymentFlowV2(c: Context, route: PaidRoute, outside: Outside) returns (processed: bool, handled: bool)
      requires Valid()
      modifies c, ledger, service.store.queries
      ensures Valid()
      ensures ledger.creditUses == old(ledger.creditUses)
      ensures var lib := outside.v2;
              processed ==>
                Users.GetUserById(outside.user).Ok? && lib.initFault.None? && lib.result.PaymentVerified?
                && lib.result.complete && lib.settle.Ok?
                && ledger.records == old(ledger.records)
                                     + [PurchaseRecord(route, PayTo(config, Users.GetUserById(outside.user).value),
                                                       lib.result.payload, lib.settle.value, c.GetHeader(PaymentHeaderName(route)))]
                && (Base64.Encode(Base64.Standard, lib.settle.value) != "" ==>
                      Text.CanonicalHeaderKey("PAYMENT-RESPONSE") in c.headers
                      && c.headers[Text.CanonicalHeaderKey("PAYMENT-RESPONSE")] == Base64.Encode(Base64.Standard, lib.settle.value))
      ensures !processed ==> ledger.records == old(ledger.records) && handled
      ensures var lib := outside.v2;
              Users.GetUserById(outside.user).Ok? && lib.initFault.None? && lib.result.PaymentError?
              && lib.result.response.Some? ==>
                var response := lib.result.response.value;
                !processed && Rows() == if (!response.isHtml || response.body.TextBody?) && response.status == StatusPaymentRequired
                                        then Counted(old(Rows()), route.shortCode, PaidRouteQueries.Attempt, Stamp(outside.now), outside.attemptFault)
                                        else old(Rows())
      ensures var lib := outside.v2;
              Users.GetUserById(outside.user).Ok? && lib.initFault.None? && lib.result.PaymentVerified?
              && lib.result.complete && lib.settle.Err? ==>
                !processed && Rows() == old(Rows())
                && c.Snapshot() == Rendered(old(c.Snapshot()), StatusPaymentRequired,
                                            JsonRender(JObject([("error", JString(ErrorString(lib.settle.error))), ("x402Version", JInt(2))])))
      ensures Users.GetUserById(outside.user).Err? ==>
                !processed && handled && Rows() == old(Rows())
                && c.Snapshot() == Rendered(old(c.Snapshot()), StatusInternalServerError, JsonRender(ErrorBody(UserLookupFailedMessage)))
      ensures Users.GetUserById(outside.user).Ok? && outside.v2.initFault.Some? ==>
                !processed && handled && Rows() == old(Rows())
                && c.Snapshot() == Rendered(old(c.Snapshot()), StatusInternalServerError, JsonRender(ErrorBody(InitFailedMessage)))
      ensures V2Decides(outside) && outside.v2.result.NoPaymentRequired? ==>
                !processed && handled && Rows() == old(Rows())
                && c.Snapshot() == Rendered(old(c.Snapshot()), StatusInternalServerError, JsonRender(ErrorBody(NoPaymentRequiredMessage)))
      ensures V2Decides(outside) && outside.v2.result.UnknownResult? ==>
                !processed && handled && Rows() == old(Rows())
                && c.Snapshot() == Rendered(old(c.Snapshot()), StatusInternalServerError, JsonRender(ErrorBody(UnknownResultMessage)))
      ensures V2Decides(outside) && outside.v2.result.PaymentError? && outside.v2.result.response.None? ==>
                !processed && handled && Rows() == old(Rows())
                && c.Snapshot() == Rendered(old(c.Snapshot()), StatusInternalServerError, JsonRender(ErrorBody(UnexpectedResponseMessage)))
      ensures V2Decides(outside) && outside.v2.result.PaymentError? && outside.v2.result.response.Some? ==>
                handled && c.Snapshot() == V2ErrorResponse(old(c.Snapshot()), outside.v2.result.response.value)
      ensures V2Decides(outside) && outside.v2.result.PaymentVerified? && !outside.v2.result.complete ==>
                !processed && handled && Rows() == old(Rows())
                && c.Snapshot() == Rendered(old(c.Snapshot()), StatusInternalServerError,
                                            JsonRender(ErrorBody(IncompleteVerificationMessage)))
      ensures V2Decides(outside) && outside.v2.result.PaymentVerified? && outside.v2.result.complete && outside.v2.settle.Ok? ==>
                var headed := WithHeader(old(c.Snapshot()), "PAYMENT-RESPONSE", Base64.Encode(Base64.Standard, outside.v2.settle.value));
                (processed <==> outside.saveFault.None?)
                && (handled <==> outside.saveFault.Some? || !PaymentCounted(old(Rows()), route, outside))
                && Rows() == RecordedRows(old(Rows()), route, outside)
                && c.Snapshot() == RecordedResponse(headed, old(Rows()), route, outside)
    {
      var accessUrl := AccessUrl(c, route);
      var user := Users.GetUserById(outside.user);
      if user.Err? {
        c.JSON(StatusInternalServerError, ErrorBody(UserLookupFailedMessage));
        return false, true;
      }
      var address := config.paymentAddress;
      if user.value.paymentAddress != "" {
        address := user.value.paymentAddress;
      }
      if outside.v2.initFault.Some? {
        c.JSON(StatusInternalServerError, ErrorBody(InitFailedMessage));
        return false, true;
      }
      match outside.v2.result {
        case PaymentError(response) =>
          processed, handled := PaymentErrorV2(c, route, response, outside);
        case NoPaymentRequired =>
          c.JSON(StatusInternalServerError, ErrorBody(NoPaymentRequiredMessage));
          return false, true;
        case UnknownResult =>
          c.JSON(StatusInternalServerError, ErrorBody(UnknownResultMessage));
          return false, true;
        case PaymentVerified(payload, complete) =>
          processed, handled := VerifiedV2(c, route, address, payload, complete, outside);
      }
    }

    /** The PaymentError branch of executeNewPaymentFlowV2: answer as the library says, and count a 402 as an attempt. */
    method PaymentErrorV2(c: Context, route: PaidRoute, response: Option<V2Response>, outside: Outside)
      returns (processed: bool, handled: bool)
      requires Valid()
      modifies c, service.store.queries
      ensures Valid() && !processed && handled
      ensures response.None? ==>
                Rows() == old(Rows())
                && c.Snapshot() == Rendered(old(c.Snapshot()), StatusInternalServerError, JsonRender(ErrorBody(UnexpectedResponseMessage)))
      ensures response.Some? ==> c.Snapshot() == V2ErrorResponse(old(c.Snapshot()), response.value)
      ensures response.Some? ==>
                Rows() == if (!response.value.isHtml || response.value.body.TextBody?) && response.value.status == StatusPaymentRequired
                          then Counted(old(Rows()), route.shortCode, PaidRouteQueries.Attempt, Stamp(outside.now), outside.attemptFault)
                          else old(Rows())
    {
      if response.None? {
        c.JSON(StatusInternalServerError, ErrorBody(UnexpectedResponseMessage));
        return false, true;
      }
      var ok := RespondV2Error(c, response.value);
      if !ok {
        return false, true;
      }
      if response.value.status == StatusPaymentRequired {
        var _ := service.IncrementCount(route.shortCode, PaidRouteQueries.Attempt, outside.now, outside.attemptFault);
      }
      return false, true;
    }

    /**
     * The PaymentVerified branch of executeNewPaymentFlowV2: settle, put the
     * settlement in PAYMENT-RESPONSE, then record the purchase.
     */
    method VerifiedV2(c: Context, route: PaidRoute, address: string, payload: seq<Base64.Byte>, complete: bool,
                      outside: Outside) returns (processed: bool, handled: bool)
      requires Valid()
      modifies c, ledger, service.store.queries
      ensures Valid()
      ensures ledger.creditUses == old(ledger.creditUses)
      ensures var settle := outside.v2.settle;
              processed ==>
                complete && settle.Ok?
                && ledger.records == old(ledger.records)
                                     + [PurchaseRecord(route, address, payload, settle.value, c.GetHeader(PaymentHeaderName(route)))]
                && (Base64.Encode(Base64.Standard, settle.value) != "" ==>
                      Text.CanonicalHeaderKey("PAYMENT-RESPONSE") in c.headers
                      && c.headers[Text.CanonicalHeaderKey("PAYMENT-RESPONSE")] == Base64.Encode(Base64.Standard, settle.value))
      ensures !processed ==> ledger.records == old(ledger.records) && handled
      ensures !complete ==>
                !processed && Rows() == old(Rows())
                && c.Snapshot() == Rendered(old(c.Snapshot()), StatusInternalServerError,
                                            JsonRender(ErrorBody(IncompleteVerificationMessage)))
      ensures complete && outside.v2.settle.Ok? ==>
                var headed := WithHeader(old(c.Snapshot()), "PAYMENT-RESPONSE", Base64.Encode(Base64.Standard, outside.v2.settle.value));
                (processed <==> outside.saveFault.None?)
                && (handled <==> outside.saveFault.Some? || !PaymentCounted(old(Rows()), route, outside))
                && Rows() == RecordedRows(old(Rows()), route, outside)
                && c.Snapshot() == RecordedResponse(headed, old(Rows()), route, outside)
      ensures complete && outside.v2.settle.Err? ==>
                !processed && Rows() == old(Rows())
                && c.Snapshot() == Rendered(old(c.Snapshot()), StatusPaymentRequired,
                                            JsonRender(JObject([("error", JString(ErrorString(outside.v2.settle.error))), ("x402Version", JInt(2))])))
    {
      if !complete {
        c.JSON(StatusInternalServerError, ErrorBody(IncompleteVerificationMessage));
        return false, true;
      }
      if outside.v2.settle.Err? {
        c.JSON(StatusPaymentRequired, JObject([("error", JString(ErrorString(outside.v2.settle.error))), ("x402Version", JInt(2))]));
        return false, true;
      }
      var settleJson := outside.v2.settle.value;
      c.Header("PAYMENT-RESPONSE", Base64.Encode(Base64.Standard, settleJson));
      processed, handled := RecordPayment(c, route, address, payload, settleJson, outside);
    }

    /** executeNewPaymentFlow: the route's protocol version picks the flow; an unknown version is a 500. */
    method NewPaymentFlow(c: Context, route: PaidRoute, outside: Outside) returns (processed: bool, handled: bool)
      requires Valid()
      modifies c, ledger, service.store.queries
      ensures Valid()
      ensures ledger.creditUses == old(ledger.creditUses)
      ensures processed ==> |ledger.records| == |old(ledger.records)| + 1
      ensures !processed ==> ledger.records == old(ledger.records) && handled
      ensures RoutePaymentVersion(route) !in {PaymentProtocolVersionV1, PaymentProtocolVersionV2} ==>
                !processed && Rows() == old(Rows())
                && c.Snapshot() == Rendered(old(c.Snapshot()), StatusInternalServerError, JsonRender(ErrorBody(UnsupportedVersionMessage)))
    {
      var version := RoutePaymentVersion(route);
      if version == PaymentProtocolVersionV1 {
        processed, handled := NewPaymentFlowV1(c, route, outside);
      } else if version == PaymentProtocolVersionV2 {
        processed, handled := NewPaymentFlowV2(c, route, outside);
      } else {
        c.JSON(StatusInternalServerError, ErrorBody(UnsupportedVersionMessage));
        return false, true;
      }
    }

    /**
     * proxyRequest: a file route is answered with a presigned download link
     * (or a 500 when presigning fails); any other route is reverse-proxied to
     * its target, unless the target does not parse.
     */
    method ProxyRequest(c: Context, route: PaidRoute, download: Result<string, Error>, targetParses: bool)
      returns (served: Served)
      modifies c
      ensures IsFileRoute(route) && download.Ok? ==>
                served == DownloadLink(download.value)
                && c.Snapshot() == Rendered(old(c.Snapshot()), StatusOK, JsonRender(DownloadBody(download.value, DownloadName(route))))
      ensures IsFileRoute(route) && download.Err? ==>
                served == NotServed
                && c.Snapshot() == Rendered(old(c.Snapshot()), StatusInternalServerError, JsonRender(ErrorBody(DownloadFailedMessage)))
      ensures !IsFileRoute(route) && targetParses ==> served == ReverseProxied(route.targetUrl) && c.Snapshot() == old(c.Snapshot())
      ensures !IsFileRoute(route) && !targetParses ==>
                served == NotServed
                && c.Snapshot() == if old(c.aborted) then old(c.Snapshot())
                                   else Rendered(old(c.Snapshot()), StatusInternalServerError, JsonRender(ErrorBody(BadTargetMessage)))
    {
      if route.resourceType == "file" || !Text.Contains(route.targetUrl, "://") {
        var name := route.targetUrl;
        if route.originalFilename.Some? {
          name := route.originalFilename.value;
        }
        if download.Err? {
          c.JSON(StatusInternalServerError, ErrorBody(DownloadFailedMessage));
          return NotServed;
        }
        c.JSON(StatusOK, DownloadBody(download.value, name));
        return DownloadLink(download.value);
      }
      if !targetParses {
        if !c.aborted {
          c.JSON(StatusInternalServerError, ErrorBody(BadTargetMessage));
        }
        return NotServed;
      }
      return ReverseProxied(route.targetUrl);
    }

    /**
     * What HandlePaidRoute does once the route is known: spend a credit or
     * run a new payment, then hand the resource out.
     */
    method Serve(c: Context, route: PaidRoute, outside: Outside) returns (served: Served)
      requires Valid()
      modifies c, ledger, service.store.queries
      ensures Valid()
      ensures served != NotServed ==>
                (|ledger.creditUses| == |old(ledger.creditUses)| + 1 && ledger.records == old(ledger.records))
                || (|ledger.records| == |old(ledger.records)| + 1 && ledger.creditUses == old(ledger.creditUses))
      ensures |ledger.creditUses| <= |old(ledger.creditUses)| + 1 && |ledger.records| <= |old(ledger.records)| + 1
    {
      var used, proceed := TryExistingPayment(c, route, outside.existing, outside.creditFault, outside.accessFault, outside.now);
      var processed := false;
      if proceed {
        var handled;
        processed, handled := NewPaymentFlow(c, route, outside);
        if handled {
          return NotServed;
        }
      }
      if !used && !processed {
        // tryExistingPayment and the flows never leave both flags false
        assert false;
      }
      served := ProxyRequest(c, route, outside.download, outside.targetParses);
    }

    /**
     * HandlePaidRoute.  Nothing is handed out without a payment path: either
     * one credit of an earlier purchase was spent, or a new purchase was
     * recorded, never both.
     */
    method HandlePaidRoute(c: Context, outside: Outside) returns (served: Served)
      requires Valid()
      modifies c, ledger, service.store.queries
      ensures Valid()
      ensures served != NotServed ==>
                (|ledger.creditUses| == |old(ledger.creditUses)| + 1 && ledger.records == old(ledger.records))
                || (|ledger.records| == |old(ledger.records)| + 1 && ledger.creditUses == old(ledger.creditUses))
      ensures |ledger.creditUses| <= |old(ledger.creditUses)| + 1 && |ledger.records| <= |old(ledger.records)| + 1
      ensures old(Lookup(c, outside.lookupFault)).Err? ==>
                served == NotServed && ledger.records == old(ledger.records)
                && ledger.creditUses == old(ledger.creditUses) && Rows() == old(Rows())
    {
      var route := GetAndValidateRoute(c, outside.lookupFault);
      if route.None? {
        return NotServed;
      }
      served := Serve(c, route.value, outside);
    }
  }
}
