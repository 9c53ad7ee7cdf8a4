/**
 * internal/api/middleware: the Bearer-token gate in front of the API.  The
 * JWT check (auth.ValidateJWT) is outside this model and arrives as the
 * function `validate` from token to payload or error.
 */
module AuthMiddleware {
  import opened Wrappers
  import opened Errors
  import opened Text
  import opened Gin

  const AuthorizationHeaderKey: string := "Authorization"
  const AuthorizationTypeBearer: string := "Bearer"
  const AuthorizationPayloadKey: string := "authorization_payload"

  /** What the header alone decides: a 401 message, or the token to validate. */
  datatype HeaderDecision = Reject(message: string) | Token(token: string)

  /** The header checks, in the order the middleware makes them. */
  function ParseAuthorization(header: string): (d: HeaderDecision)
    ensures header == "" ==> d == Reject("Authorization header is not provided")
    ensures d.Token? <==> header != "" && |Fields(header)| >= 2 && Fields(header)[0] == AuthorizationTypeBearer
    ensures d.Token? ==> d.token == Fields(header)[1] && |d.token| > 0
    ensures d.Token? ==> forall i :: 0 <= i < |d.token| ==> !IsSpace(d.token[i])
  {
    if |header| == 0 then Reject("Authorization header is not provided")
    else
      var fields := Fields(header);
      if |fields| < 2 then Reject("Invalid authorization header format")
      else if fields[0] != AuthorizationTypeBearer then Reject("Unsupported authorization type")
      else Token(fields[1])
  }

  /** The whole middleware as a change to the response state. */
  function Authorize(r: Response, header: string, validate: string -> Result<Json, Error>): (r': Response)
    ensures r'.nextCalled <==> r.nextCalled || (ParseAuthorization(header).Token? && validate(ParseAuthorization(header).token).Ok?)
    ensures ParseAuthorization(header).Reject? ==>
              r' == Rendered(r.(aborted := true), StatusUnauthorized, JsonRender(ErrorBody(ParseAuthorization(header).message)))
    ensures ParseAuthorization(header).Token? && validate(ParseAuthorization(header).token).Err? ==>
              r' == Rendered(r.(aborted := true), StatusUnauthorized,
                             JsonRender(ErrorBody(ErrorString(validate(ParseAuthorization(header).token).error))))
    ensures ParseAuthorization(header).Token? && validate(ParseAuthorization(header).token).Ok? ==>
              r'.keys == r.keys[AuthorizationPayloadKey := validate(ParseAuthorization(header).token).value]
              && r'.status == r.status && r'.renders == r.renders && r'.aborted == r.aborted
  {
    match ParseAuthorization(header)
    case Reject(m) => Rendered(r.(aborted := true), StatusUnauthorized, JsonRender(ErrorBody(m)))
    case Token(t) =>
      match validate(t)
      case Err(e) => Rendered(r.(aborted := true), StatusUnauthorized, JsonRender(ErrorBody(ErrorString(e))))
      case Ok(payload) => r.(keys := r.keys[AuthorizationPayloadKey := payload], nextCalled := true)
  }

  /** AuthMiddleware's handler: the header checks of ParseAuthorization, then the token's validation. */
  method Middleware(ctx: Context, validate: string -> Result<Json, Error>)
    modifies ctx
    ensures ctx.Snapshot() == Authorize(old(ctx.Snapshot()), ctx.GetHeader(AuthorizationHeaderKey), validate)
  {
    var header := ctx.GetHeader(AuthorizationHeaderKey);
    match ParseAuthorization(header)
    case Reject(message) =>
      ctx.AbortWithStatusJSON(StatusUnauthorized, ErrorBody(message));
    case Token(token) =>
      var payload := validate(token);
      if payload.Err? {
        ctx.AbortWithStatusJSON(StatusUnauthorized, ErrorBody(ErrorString(payload.error)));
        return;
      }
      ctx.Set(AuthorizationPayloadKey, payload.value);
      ctx.Next();
  }

  lemma {:induction false} WordLengthOfWord(s: string)
    requires forall i :: 0 <= i < |s| ==> !IsSpace(s[i])
    ensures WordLength(s) == |s|
  {
    if |s| > 0 {
      WordLengthOfWord(s[1..]);
    }
  }

  lemma FieldsOfWord(s: string)
    requires |s| > 0 && forall i :: 0 <= i < |s| ==> !IsSpace(s[i])
    ensures Fields(s) == [s]
  {
    WordLengthOfWord(s);
    assert s[..|s|] == s && s[|s|..] == [];
  }

  /**
   * A well-formed "Bearer <token>" header hands exactly that token to the
   * validator: the parse is the inverse of how clients build the header.
   */
  lemma BearerRoundTrip(token: string)
    requires |token| > 0 && forall i :: 0 <= i < |token| ==> !IsSpace(token[i])
    ensures ParseAuthorization(AuthorizationTypeBearer + " " + token) == Token(token)
  {
    var h := AuthorizationTypeBearer + " " + token;
    assert WordLength(h) == 6 by {
      assert h[6] == ' ';
      assert h[..6] == AuthorizationTypeBearer;
      assert WordLength(h[6..]) == 0;
      assert h[1..][5..] == h[6..];
      assert h[2..][4..] == h[6..];
      assert h[3..][3..] == h[6..];
      assert h[4..][2..] == h[6..];
      assert h[5..][1..] == h[6..];
    }
    assert h[6..][1..] == token;
    FieldsOfWord(token);
    assert Fields(h[6..]) == [token];
    assert !IsSpace(h[0]) && h[..6] == AuthorizationTypeBearer;
    assert Fields(h) == [h[..6]] + Fields(h[6..]);
  }

  /** The scheme name is compared exactly: a lower-case "bearer" is refused. */
  lemma SchemeIsCaseSensitive(token: string)
    requires |token| > 0 && forall i :: 0 <= i < |token| ==> !IsSpace(token[i])
    ensures ParseAuthorization("bearer " + token) == Reject("Unsupported authorization type")
  {
    var h := "bearer " + token;
    assert WordLength(h) == 6 by {
      assert h[6] == ' ';
      assert h[1..][5..] == h[6..];
      assert h[2..][4..] == h[6..];
      assert h[3..][3..] == h[6..];
      assert h[4..][2..] == h[6..];
      assert h[5..][1..] == h[6..];
    }
    assert h[6..][1..] == token;
    FieldsOfWord(token);
    assert Fields(h[6..]) == [token];
    assert !IsSpace(h[0]) && h[..6] == "bearer";
    assert Fields(h) == [h[..6]] + Fields(h[6..]);
  }
}
