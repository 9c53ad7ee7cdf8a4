/**
 * routes/handler.go: the route-creation requests as the handlers bind them,
 * the defaults filled in before validation, and the validation itself.
 * Price parsing is floating point and is an input here: `parsePrice` is
 * PriceUtils.ParsePrice, a price in millionths of a USDC or its error.
 */
module RouteRequests {
  import opened Wrappers
  import opened Errors
  import opened Text

  /** CreatePaidRouteRequest; `hasCover` says whether a cover image was attached. */
  datatype UrlRouteRequest = UrlRouteRequest(
    targetUrl: string,
    httpMethod: string,
    price: string,
    isTest: bool,
    routeType: string,
    credits: nat,
    hasCover: bool,
    title: string,
    description: string)

  /** CreateFileRouteRequest. */
  datatype FileRouteRequest = FileRouteRequest(
    originalFilename: string,
    price: string,
    isTest: bool,
    routeType: string,
    credits: nat,
    hasCover: bool,
    title: string,
    description: string)

  /** The methods a route may be created with (validMethods). */
  const ValidMethods: set<string> := {"GET", "POST", "PUT", "DELETE", "PATCH"}

  const InvalidMethod: Error := Message("invalid HTTP method provided")

  /**
   * setDefaultTypeAndCredits: an empty type becomes "credit" and zero
   * credits become one; anything else is kept.
   */
  function DefaultTypeAndCredits(routeType: string, credits: nat): (string, nat)
  {
    (if routeType == "" then "credit" else routeType, if credits == 0 then 1 else credits)
  }

  /**
   * After the defaults, a route always has a type and at least one credit;
   * a type or credit count the request set is kept, and applying the
   * defaults again changes nothing.
   */
  lemma DefaultsAreComplete(routeType: string, credits: nat)
    ensures var (t, c) := DefaultTypeAndCredits(routeType, credits);
            t != "" && c >= 1 && DefaultTypeAndCredits(t, c) == (t, c)
            && (routeType != "" ==> t == routeType) && (credits != 0 ==> c == credits)
  {
  }

  function WithDefaults(req: UrlRouteRequest): UrlRouteRequest
  {
    var (t, c) := DefaultTypeAndCredits(req.routeType, req.credits);
    req.(routeType := t, credits := c)
  }

  function FileWithDefaults(req: FileRouteRequest): FileRouteRequest
  {
    var (t, c) := DefaultTypeAndCredits(req.routeType, req.credits);
    req.(routeType := t, credits := c)
  }

  /** CreatePaidRouteRequest.Validate: the upper-cased method must be a valid one, then the price must parse. */
  function Validate(req: UrlRouteRequest, parsePrice: string -> Result<nat, Error>): (err: Option<Error>)
    ensures err.None? <==> ToUpper(req.httpMethod) in ValidMethods && parsePrice(req.price).Ok?
  {
    if ToUpper(req.httpMethod) !in ValidMethods then Some(InvalidMethod)
    else match parsePrice(req.price)
      case Ok(_) => None
      case Err(e) => Some(e)
  }

  /** CreateFileRouteRequest.Validate: only the price is checked. */
  function ValidateFile(req: FileRouteRequest, parsePrice: string -> Result<nat, Error>): Option<Error>
  {
    match parsePrice(req.price)
    case Ok(_) => None
    case Err(e) => Some(e)
  }

  /** An invalid method is reported as such whatever the price: the price is parsed only for a valid method. */
  lemma MethodCheckedBeforePrice(req: UrlRouteRequest, parsePrice: string -> Result<nat, Error>)
    requires ToUpper(req.httpMethod) !in ValidMethods
    ensures Validate(req, parsePrice) == Some(InvalidMethod)
  {
  }

  /** A file request is judged on its price alone: requests with the same price validate alike. */
  lemma FileValidationReadsOnlyThePrice(req: FileRouteRequest, other: FileRouteRequest,
                                        parsePrice: string -> Result<nat, Error>)
    requires req.price == other.price
    ensures ValidateFile(req, parsePrice) == ValidateFile(other, parsePrice)
  {
  }

}
