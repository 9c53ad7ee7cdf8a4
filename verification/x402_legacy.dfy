/**
 * internal/x402/payment.go: the older x402 gate.  It builds the same
 * requirements as the version 1 gate but answers differently: there is no
 * protocol header and no paywall page, any header that fails to decode is
 * "X-PAYMENT header is required", a verify transport error is a 500, the
 * next handler runs between verify and settle, and two 500 aborts (the
 * token info and the settle header encoding) do not stop the flow.
 *
 * What the gate does to the gin context is written as a list of actions
 * (`Actions`), replayed on the response by `Play`; the facilitator calls
 * are actions too, so their order can be stated.  SetUSDCInfo,
 * DecodePaymentPayloadFromBase64 and the settle response encoder are not
 * part of this model: their results are inputs.
 */
module InternalX402 {
  import opened Wrappers
  import opened Gin
  import X402
  import Text

  /** An option of this gate: one the version 1 gate has too, or the custom paywall page. */
  datatype Setter = Common(setter: X402.Setter) | WithCustomPaywallHtml(html: string)

  datatype PaymentOptions = PaymentOptions(common: X402.PaymentOptions, customPaywallHtml: string)

  function Set(o: PaymentOptions, s: Setter): PaymentOptions
  {
    match s
    case Common(c) => o.(common := X402.Set(o.common, c))
    case WithCustomPaywallHtml(h) => o.(customPaywallHtml := h)
  }

  /** The options after `opts`, in order, over the same defaults as the version 1 gate. */
  function Applied(opts: seq<Setter>): PaymentOptions
  {
    if opts == [] then PaymentOptions(X402.Defaults, "") else Set(Applied(opts[..|opts| - 1]), opts[|opts| - 1])
  }

  method ApplyOptions(opts: seq<Setter>) returns (options: PaymentOptions)
    ensures options == Applied(opts)
  {
    options := PaymentOptions(X402.Defaults, "");
    for i := 0 to |opts|
      invariant options == Applied(opts[..i])
    {
      assert opts[..i + 1][..i] == opts[..i];
      options := Set(options, opts[i]);
    }
    assert opts[..|opts|] == opts;
  }

  /** The custom paywall option changes nothing the gate uses: the common options are the version 1 gate's. */
  lemma {:induction false} PaywallOptionIsInert(opts: seq<Setter>)
    ensures Applied(opts).common == X402.Applied(CommonOnly(opts))
    decreases |opts|
  {
    if opts != [] {
      var front := opts[..|opts| - 1];
      PaywallOptionIsInert(front);
      var last := opts[|opts| - 1];
      assert opts[..|opts| - 1] == front;
      if last.Common? {
        assert CommonOnly(opts) == CommonOnly(front) + [last.setter];
        assert CommonOnly(opts)[..|CommonOnly(opts)| - 1] == CommonOnly(front);
      } else {
        assert CommonOnly(opts) == CommonOnly(front) + [];
        assert CommonOnly(opts) == CommonOnly(front);
      }
    }
  }

  function CommonOnly(opts: seq<Setter>): seq<X402.Setter>
  {
    if opts == [] then []
    else CommonOnly(opts[..|opts| - 1]) + (if opts[|opts| - 1].Common? then [opts[|opts| - 1].setter] else [])
  }

  /** NewFacilitatorClient: an empty URL falls back to the default facilitator. */
  function ClientUrl(url: string): (r: string)
    ensures r != ""
    ensures url != "" ==> r == url
  {
    if url == "" then X402.DefaultFacilitatorUrl else url
  }

  /** The requirements before SetUSDCInfo: no token info yet. */
  function BaseRequirements(options: PaymentOptions, amount: nat, address: string, path: string): (r: X402.Requirements)
    ensures r.extra.None?
    ensures r == X402.BuildRequirements(options.common, amount, address, path).(extra := None)
  {
    X402.BuildRequirements(options.common, amount, address, path).(extra := None)
  }

  /** SetUSDCInfo's outcome: the token info it stores, or its error text. */
  function WithTokenInfo(r: X402.Requirements, usdc: Result<X402.TokenInfo, string>): X402.Requirements
  {
    if usdc.Ok? then r.(extra := Some(usdc.value)) else r
  }

  /** The facilitator's verify answer: a transport error or a response. */
  datatype VerifyOutcome = VerifyError(message: string) | VerifyResponse(isValid: bool, invalidReason: string)

  /** The facilitator's settle answer; a settled response carries its base64 header or the encoder's error. */
  datatype SettleOutcome = SettleError(message: string) | Settled(header: Result<string, string>)

  /** What the gate does, in order. */
  datatype Action =
    | AbortJson(code: int, body: Json)
    | CallVerify
    | CallNext
    | CallSettle
    | SetHeader(key: string, value: string)

  /** The 402 body: the message as given, the requirements, version 1. */
  function Rejection(message: string, r: X402.Requirements): Json
  {
    JObject([("error", JString(message)), ("accepts", JArray([X402.RequirementsJson(r)])), ("x402Version", JInt(1))])
  }

  /** The ladder once the token info is settled. */
  function Ladder(r: X402.Requirements, decodes: bool, verify: VerifyOutcome, settle: SettleOutcome): (acts: seq<Action>)
    ensures !decodes ==> acts == [AbortJson(StatusPaymentRequired, Rejection(X402.HeaderRequired, r))]
    ensures decodes ==> |acts| > 0 && acts[0] == CallVerify
    ensures CallSettle in acts <==> decodes && verify.VerifyResponse? && verify.isValid
    ensures forall i :: 0 <= i < |acts| && acts[i] == CallSettle ==> 1 <= i && acts[i - 1] == CallNext && acts[0] == CallVerify
    ensures verify.VerifyError? && decodes ==> acts == [CallVerify, AbortJson(StatusInternalServerError, ErrorBody(verify.message))]
  {
    if !decodes then [AbortJson(StatusPaymentRequired, Rejection(X402.HeaderRequired, r))]
    else
      [CallVerify] +
      match verify
      case VerifyError(m) => [AbortJson(StatusInternalServerError, ErrorBody(m))]
      case VerifyResponse(valid, reason) =>
        if !valid then [AbortJson(StatusPaymentRequired, Rejection(reason, r))]
        else
          [CallNext, CallSettle] + SettleActions(r, settle)
  }

  /** What follows the settle call. */
  function SettleActions(r: X402.Requirements, settle: SettleOutcome): (acts: seq<Action>)
    ensures CallSettle !in acts && CallNext !in acts && CallVerify !in acts
  {
    match settle
    case SettleError(m) => [AbortJson(StatusPaymentRequired, Rejection(m, r))]
    case Settled(Err(m)) => [AbortJson(StatusInternalServerError, ErrorBody(m)), SetHeader("X-PAYMENT-RESPONSE", "")]
    case Settled(Ok(h)) => [SetHeader("X-PAYMENT-RESPONSE", h)]
  }

  /** Everything the gate does: a token info failure aborts with 500 and the ladder still runs. */
  function Actions(r: X402.Requirements, usdc: Result<X402.TokenInfo, string>, decodes: bool,
                   verify: VerifyOutcome, settle: SettleOutcome): seq<Action>
  {
    (if usdc.Err? then [AbortJson(StatusInternalServerError, ErrorBody(usdc.error))] else [])
    + Ladder(WithTokenInfo(r, usdc), decodes, verify, settle)
  }

  /** One action on the response; the facilitator calls leave it alone. */
  function Do(resp: Response, a: Action): Response
  {
    match a
    case AbortJson(code, body) => Rendered(resp.(aborted := true), code, JsonRender(body))
    case CallNext => resp.(nextCalled := true)
    case SetHeader(k, v) => WithHeader(resp, k, v)
    case _ => resp
  }

  function Play(resp: Response, acts: seq<Action>): Response
  {
    if acts == [] then resp else Do(Play(resp, acts[..|acts| - 1]), acts[|acts| - 1])
  }

  lemma PlayStep(resp: Response, acts: seq<Action>, a: Action)
    ensures Play(resp, acts + [a]) == Do(Play(resp, acts), a)
  {
    assert (acts + [a])[..|acts|] == acts;
  }

  /** Once a status has been written it stays: a later 402 cannot replace the 500 of a token info failure. */
  lemma {:induction false} WrittenStatusSticks(resp: Response, acts: seq<Action>)
    requires resp.written
    ensures Play(resp, acts).status == resp.status && Play(resp, acts).written
    decreases |acts|
  {
    if acts != [] {
      WrittenStatusSticks(resp, acts[..|acts| - 1]);
    }
  }

  /** A token info failure on a fresh response leaves a 500 whatever the ladder does next. */
  lemma TokenInfoFailureIs500(resp: Response, r: X402.Requirements, message: string, decodes: bool,
                              verify: VerifyOutcome, settle: SettleOutcome)
    requires !resp.written
    ensures Play(resp, Actions(r, Err(message), decodes, verify, settle)).status == StatusInternalServerError
  {
    var first := [AbortJson(StatusInternalServerError, ErrorBody(message))];
    var rest := Ladder(r, decodes, verify, settle);
    var after := Do(resp, first[0]);
    assert after.written;
    PlayPrefix(resp, first, rest);
    assert Play(resp, first) == after by {
      assert first[..0] == [];
    }
    WrittenStatusSticks(after, rest);
  }

  lemma {:induction false} PlayPrefix(resp: Response, a: seq<Action>, b: seq<Action>)
    ensures Play(resp, a + b) == Play(Play(resp, a), b)
    decreases |b|
  {
    if b == [] {
      assert a + b == a;
    } else {
      var front := b[..|b| - 1];
      assert (a + b)[..|a + b| - 1] == a + front;
      PlayPrefix(resp, a, front);
    }
  }

  /**
   * The response each rung of the ladder leaves on a fresh context: a header
   * that does not decode, an invalid payment and a failed settle are 402s, a
   * verify transport error and a failed header encoding are 500s; the next
   * handler runs exactly when verify says valid, and a settled payment keeps
   * whatever the next handler wrote.
   */
  lemma LadderOutcome(resp: Response, r: X402.Requirements, decodes: bool, verify: VerifyOutcome, settle: SettleOutcome)
    requires !resp.written && !resp.nextCalled && !resp.aborted
    ensures var out := Play(resp, Ladder(r, decodes, verify, settle));
            out.nextCalled <==> decodes && verify.VerifyResponse? && verify.isValid
    ensures var out := Play(resp, Ladder(r, decodes, verify, settle));
            !(decodes && verify.VerifyResponse? && verify.isValid) ==>
              out.aborted && out.written
              && out.status == (if decodes && verify.VerifyError? then StatusInternalServerError else StatusPaymentRequired)
    ensures var out := Play(resp, Ladder(r, decodes, verify, settle));
            decodes && verify.VerifyResponse? && verify.isValid && settle.SettleError? ==>
              out.aborted && out.status == StatusPaymentRequired
    ensures var out := Play(resp, Ladder(r, decodes, verify, settle));
            decodes && verify.VerifyResponse? && verify.isValid && settle.Settled? && settle.header.Err? ==>
              out.aborted && out.status == StatusInternalServerError
              && Text.CanonicalHeaderKey("X-PAYMENT-RESPONSE") !in out.headers
    ensures var out := Play(resp, Ladder(r, decodes, verify, settle));
            decodes && verify.VerifyResponse? && verify.isValid && settle.Settled? && settle.header.Ok? ==>
              !out.aborted && !out.written && out.status == resp.status
              && (settle.header.value != "" ==> out.headers[Text.CanonicalHeaderKey("X-PAYMENT-RESPONSE")] == settle.header.value)
  {
    if decodes && verify.VerifyResponse? && verify.isValid {
      AcceptedOutcome(resp, r, verify, settle);
    } else {
      RejectedOutcome(resp, r, decodes, verify, settle);
    }
  }

  /** The rungs that refuse: one abort, no next handler. */
  lemma RejectedOutcome(resp: Response, r: X402.Requirements, decodes: bool, verify: VerifyOutcome, settle: SettleOutcome)
    requires !resp.written && !resp.nextCalled && !resp.aborted
    requires !(decodes && verify.VerifyResponse? && verify.isValid)
    ensures var out := Play(resp, Ladder(r, decodes, verify, settle));
            !out.nextCalled && out.aborted && out.written
            && out.status == (if decodes && verify.VerifyError? then StatusInternalServerError else StatusPaymentRequired)
  {
    var acts := Ladder(r, decodes, verify, settle);
    if !decodes {
      PlayOne(resp, acts[0]);
    } else {
      assert acts == [CallVerify, acts[1]];
      PlayTwo(resp, CallVerify, acts[1]);
    }
  }

  /** The valid-payment rung: verify, next, settle, then what the settle answer calls for. */
  lemma AcceptedOutcome(resp: Response, r: X402.Requirements, verify: VerifyOutcome, settle: SettleOutcome)
    requires !resp.written && !resp.nextCalled && !resp.aborted
    requires verify.VerifyResponse? && verify.isValid
    ensures var out := Play(resp, Ladder(r, true, verify, settle));
            out.nextCalled
            && (settle.SettleError? ==> out.aborted && out.status == StatusPaymentRequired)
            && (settle.Settled? && settle.header.Err? ==>
                  out.aborted && out.status == StatusInternalServerError
                  && Text.CanonicalHeaderKey("X-PAYMENT-RESPONSE") !in out.headers)
            && (settle.Settled? && settle.header.Ok? ==>
                  !out.aborted && !out.written && out.status == resp.status
                  && (settle.header.value != "" ==> out.headers[Text.CanonicalHeaderKey("X-PAYMENT-RESPONSE")] == settle.header.value))
  {
    var head := [CallVerify, CallNext, CallSettle];
    var tail := SettleActions(r, settle);
    assert Ladder(r, true, verify, settle) == head + tail;
    PlayPrefix(resp, head, tail);
    PlayHead(resp);
    var mid := resp.(nextCalled := true);
    if settle.SettleError? || settle.header.Ok? {
      PlayOne(mid, tail[0]);
    } else {
      PlayTwo(mid, tail[0], tail[1]);
    }
  }

  lemma PlayOne(resp: Response, a: Action)
    ensures Play(resp, [a]) == Do(resp, a)
  {
    PlayStep(resp, [], a);
  }

  lemma PlayTwo(resp: Response, a: Action, b: Action)
    ensures Play(resp, [a, b]) == Do(Do(resp, a), b)
  {
    PlayStep(resp, [a], b);
    PlayOne(resp, a);
    assert [a] + [b] == [a, b];
  }

  lemma PlayHead(resp: Response)
    ensures Play(resp, [CallVerify, CallNext, CallSettle]) == resp.(nextCalled := true)
  {
    PlayTwo(resp, CallVerify, CallNext);
    PlayStep(resp, [CallVerify, CallNext], CallSettle);
    assert [CallVerify, CallNext] + [CallSettle] == [CallVerify, CallNext, CallSettle];
  }

  /** Settling after the next handler ran: a settle error is a 402, an encoder error a 500 that does not stop the header. */
  method SettleStep(c: Context, r: X402.Requirements, settle: SettleOutcome) returns (ghost acts: seq<Action>)
    modifies c
    ensures acts == SettleActions(r, settle)
    ensures c.Snapshot() == Play(old(c.Snapshot()), acts)
  {
    if settle.SettleError? {
      c.AbortWithStatusJSON(StatusPaymentRequired, Rejection(settle.message, r));
      acts := [AbortJson(StatusPaymentRequired, Rejection(settle.message, r))];
      PlayStep(old(c.Snapshot()), [], acts[0]);
      return;
    }
    ghost var start := c.Snapshot();
    var encoded := "";
    acts := [];
    if settle.header.Err? {
      c.AbortWithStatusJSON(StatusInternalServerError, ErrorBody(settle.header.error));
      acts := [AbortJson(StatusInternalServerError, ErrorBody(settle.header.error))];
      PlayStep(start, [], acts[0]);
    } else {
      encoded := settle.header.value;
    }
    c.Header("X-PAYMENT-RESPONSE", encoded);
    PlayStep(start, acts, SetHeader("X-PAYMENT-RESPONSE", encoded));
    acts := acts + [SetHeader("X-PAYMENT-RESPONSE", encoded)];
  }

  /** The ladder on a gin context, from decoding the header on. */
  method LadderStep(c: Context, r: X402.Requirements, decodes: bool, verify: VerifyOutcome, settle: SettleOutcome)
    returns (ghost acts: seq<Action>)
    modifies c
    ensures acts == Ladder(r, decodes, verify, settle)
    ensures c.Snapshot() == Play(old(c.Snapshot()), acts)
  {
    ghost var start := c.Snapshot();
    if !decodes {
      c.AbortWithStatusJSON(StatusPaymentRequired, Rejection(X402.HeaderRequired, r));
      acts := [AbortJson(StatusPaymentRequired, Rejection(X402.HeaderRequired, r))];
      PlayStep(start, [], acts[0]);
      return;
    }
    PlayStep(start, [], CallVerify);
    if verify.VerifyError? {
      c.AbortWithStatusJSON(StatusInternalServerError, ErrorBody(verify.message));
      acts := [CallVerify, AbortJson(StatusInternalServerError, ErrorBody(verify.message))];
      PlayStep(start, [CallVerify], acts[1]);
      return;
    }
    if !verify.isValid {
      c.AbortWithStatusJSON(StatusPaymentRequired, Rejection(verify.invalidReason, r));
      acts := [CallVerify, AbortJson(StatusPaymentRequired, Rejection(verify.invalidReason, r))];
      PlayStep(start, [CallVerify], acts[1]);
      return;
    }
    acts := AcceptStep(c, r, settle);
  }

  /** The valid-payment rung on a gin context: the next handler runs, then the settlement. */
  method AcceptStep(c: Context, r: X402.Requirements, settle: SettleOutcome) returns (ghost acts: seq<Action>)
    modifies c
    ensures acts == [CallVerify, CallNext, CallSettle] + SettleActions(r, settle)
    ensures c.Snapshot() == Play(old(c.Snapshot()), acts)
  {
    ghost var start := c.Snapshot();
    PlayStep(start, [], CallVerify);
    c.Next();
    PlayStep(start, [CallVerify], CallNext);
    assert [CallVerify] + [CallNext] == [CallVerify, CallNext];
    PlayStep(start, [CallVerify, CallNext], CallSettle);
    assert [CallVerify, CallNext] + [CallSettle] == [CallVerify, CallNext, CallSettle];
    assert c.Snapshot() == Play(start, [CallVerify, CallNext, CallSettle]);
    ghost var rest := SettleStep(c, r, settle);
    PlayPrefix(start, [CallVerify, CallNext, CallSettle], rest);
    acts := [CallVerify, CallNext, CallSettle] + rest;
  }

  /**
   * Payment: the gate on a gin context.  The header decoder is `decodes`;
   * the verify and settle answers and the token info are inputs.
   */
  method Payment(c: Context, amount: nat, address: string, opts: seq<Setter>, usdc: Result<X402.TokenInfo, string>,
                 decodes: string -> bool, verify: VerifyOutcome, settle: SettleOutcome)
    returns (ghost acts: seq<Action>)
    modifies c
    ensures acts == Actions(BaseRequirements(Applied(opts), amount, address, c.path), usdc,
                            decodes(c.GetHeader("X-PAYMENT")), verify, settle)
    ensures c.Snapshot() == Play(old(c.Snapshot()), acts)
  {
    var options := ApplyOptions(opts);
    var requirements := BaseRequirements(options, amount, address, c.path);
    ghost var start := c.Snapshot();
    ghost var head: seq<Action> := [];
    if usdc.Err? {
      c.AbortWithStatusJSON(StatusInternalServerError, ErrorBody(usdc.error));
      head := [AbortJson(StatusInternalServerError, ErrorBody(usdc.error))];
      PlayStep(start, [], head[0]);
    } else {
      requirements := requirements.(extra := Some(usdc.value));
    }
    var payment := c.GetHeader("X-PAYMENT");
    ghost var rest := LadderStep(c, requirements, decodes(payment), verify, settle);
    PlayPrefix(start, head, rest);
    acts := head + rest;
  }
}
