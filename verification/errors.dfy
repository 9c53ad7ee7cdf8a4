/**
 * Go error values as the model sees them: package sentinels, errors built
 * with errors.New, and chains built with fmt.Errorf("...: %w", cause).
 * `Is` is errors.Is over such a chain.
 */
module Errors {

  /** The sentinel error variables the core compares against with errors.Is. */
  datatype Sentinel =
    | PgxNoRows            // pgx.ErrNoRows
    | GormRecordNotFound   // gorm.ErrRecordNotFound
    | RouteNotFound        // routes.ErrRouteNotFound
    | RouteNoPermission    // routes.ErrRouteNoPermission
    | StoreRouteNotFound   // internal/store.ErrRouteNotFound (a distinct variable)
    | UserNotFound         // users.ErrUserNotFound
    | PurchaseNotFound     // purchases.ErrPurchaseNotFound
    | NoStats              // purchases.ErrNoStats

  datatype Error =
    | Sentinel(kind: Sentinel)
    | Message(text: string)                 // errors.New(text) or a foreign error
    | Wrapped(context: string, cause: Error)  // fmt.Errorf(context + ": %w", cause)

  /** errors.Is(e, kind): walks the %w chain. */
  function Is(e: Error, kind: Sentinel): bool
  {
    match e
    case Sentinel(k) => k == kind
    case Message(_) => false
    case Wrapped(_, cause) => Is(cause, kind)
  }

  function SentinelText(kind: Sentinel): string
  {
    match kind
    case PgxNoRows => "no rows in result set"
    case GormRecordNotFound => "record not found"
    case RouteNotFound => "route not found"
    case RouteNoPermission => "you do not have permission to access this route"
    case StoreRouteNotFound => "route not found"
    case UserNotFound => "user not found"
    case PurchaseNotFound => "purchase not found"
    case NoStats => "no purchase statistics available"
  }

  /** err.Error(): the text a Go error prints. */
  function ErrorString(e: Error): string
  {
    match e
    case Sentinel(k) => SentinelText(k)
    case Message(t) => t
    case Wrapped(c, cause) => c + ": " + ErrorString(cause)
  }

  /** Wrapping keeps the identity of the cause and prefixes its text. */
  lemma {:induction false} WrapPreservesIdentity(context: string, cause: Error, kind: Sentinel)
    ensures Is(Wrapped(context, cause), kind) <==> Is(cause, kind)
    ensures ErrorString(Wrapped(context, cause)) == context + ": " + ErrorString(cause)
  {
  }
}
