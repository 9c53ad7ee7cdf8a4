/**
 * routes/routes.go and routes/interface.go: the paid route as the handlers
 * see it.  Unsigned 64-bit fields are `nat`; optional strings are Options;
 * instants are integers (see PaidRouteQueries.ZeroTime).
 */
module Routes {
  import opened Wrappers

  const PaymentProtocolVersionV1: nat := 1
  const PaymentProtocolVersionV2: nat := 2

  datatype PaidRoute = PaidRoute(
    id: nat,
    shortCode: string,
    httpMethod: string,
    targetUrl: string,
    resourceType: string,
    originalFilename: Option<string>,
    coverImageUrl: Option<string>,
    title: Option<string>,
    description: Option<string>,
    price: nat,
    routeType: string,
    credits: nat,
    isTest: bool,
    userId: nat,
    isEnabled: bool,
    attemptCount: nat,
    paymentCount: nat,
    accessCount: nat,
    createdAt: int,
    updatedAt: int,
    deletedAt: Option<int>,
    paymentProtocolVersion: nat)
}
