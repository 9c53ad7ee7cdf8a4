/**
 * x402/payment.go: the version 1 x402 payment gate.  Options are applied in
 * order over the defaults; the payment requirements name the network, the
 * USDC contract on it, the amount in the token's smallest unit and the
 * resource; then the X-PAYMENT header goes down a ladder of checks, and
 * every rejection is a 402 Payment Required (section 15.5.3 of RFC 9110).
 *
 * The facilitator's verify and settle answers, the payload version
 * detection and the payload parser are inputs.  The amount is given in
 * millionths of a USDC (the smallest unit of the token).
 */
module X402 {
  import opened Wrappers
  import opened Text
  import opened Gin
  import Base64

  const X402Version: int := 1

  /** The facilitator used when no other is configured. */
  const DefaultFacilitatorUrl: string := "https://x402.org/facilitator"

  const MainnetNetwork: string := "base"
  const TestnetNetwork: string := "base-sepolia"
  const MainnetUsdc: string := "0x833589fCD6eDb6E08f4c7C32D4f71b54bdA02913"
  const TestnetUsdc: string := "0x036CbD53842c5426634e7929541eC2318f3dCF7e"

  // ------------------------------------------------------------- options

  /** PaymentOptions; the output schema is raw JSON text or absent. */
  datatype PaymentOptions = PaymentOptions(
    description: string,
    mimeType: string,
    maxTimeoutSeconds: int,
    outputSchema: Option<string>,
    facilitatorUrl: string,
    testnet: bool,
    resource: string,
    resourceRootUrl: string)

  /** The options before any setter runs. */
  const Defaults: PaymentOptions := PaymentOptions("", "", 60, None, DefaultFacilitatorUrl, true, "", "")

  /** One functional option (WithDescription, WithMimeType, ...). */
  datatype Setter =
    | WithDescription(description: string)
    | WithMimeType(mimeType: string)
    | WithMaxTimeoutSeconds(seconds: int)
    | WithOutputSchema(schema: Option<string>)
    | WithFacilitatorUrl(url: string)
    | WithTestnet(testnet: bool)
    | WithResource(resource: string)
    | WithResourceRootUrl(root: string)

  /** Running one option: it writes its own field. */
  function Set(o: PaymentOptions, s: Setter): PaymentOptions
  {
    match s
    case WithDescription(d) => o.(description := d)
    case WithMimeType(m) => o.(mimeType := m)
    case WithMaxTimeoutSeconds(n) => o.(maxTimeoutSeconds := n)
    case WithOutputSchema(schema) => o.(outputSchema := schema)
    case WithFacilitatorUrl(u) => o.(facilitatorUrl := u)
    case WithTestnet(t) => o.(testnet := t)
    case WithResource(r) => o.(resource := r)
    case WithResourceRootUrl(r) => o.(resourceRootUrl := r)
  }

  /** The options after running `opts` in order over the defaults. */
  function Applied(opts: seq<Setter>): PaymentOptions
  {
    if opts == [] then Defaults else Set(Applied(opts[..|opts| - 1]), opts[|opts| - 1])
  }

  /** The loop `for _, opt := range opts { opt(options) }`. */
  method ApplyOptions(opts: seq<Setter>) returns (options: PaymentOptions)
    ensures options == Applied(opts)
  {
    options := Defaults;
    for i := 0 to |opts|
      invariant options == Applied(opts[..i])
    {
      assert opts[..i + 1][..i] == opts[..i];
      options := Set(options, opts[i]);
    }
    assert opts[..|opts|] == opts;
  }

  /**
   * The last option that writes a field decides it, and a field no option
   * writes keeps its default.  `writes` says which setters write the field
   * and `get` reads it.
   */
  lemma {:induction false} LastSetterWins<T>(opts: seq<Setter>, writes: Setter -> bool, get: PaymentOptions -> T)
    requires forall o, s :: !writes(s) ==> get(Set(o, s)) == get(o)
    requires forall o, o', s :: writes(s) ==> get(Set(o, s)) == get(Set(o', s))
    ensures (forall k :: 0 <= k < |opts| ==> !writes(opts[k])) ==> get(Applied(opts)) == get(Defaults)
    ensures forall k :: 0 <= k < |opts| && writes(opts[k]) && (forall m :: k < m < |opts| ==> !writes(opts[m])) ==>
              get(Applied(opts)) == get(Set(Defaults, opts[k]))
    decreases |opts|
  {
    if opts != [] {
      var front, last := opts[..|opts| - 1], opts[|opts| - 1];
      LastSetterWins(front, writes, get);
      assert Applied(opts) == Set(Applied(front), last);
      if writes(last) {
        assert get(Applied(opts)) == get(Set(Defaults, last));
      } else {
        assert get(Applied(opts)) == get(Applied(front));
        if forall k :: 0 <= k < |opts| ==> !writes(opts[k]) {
          assert forall k :: 0 <= k < |front| ==> front[k] == opts[k];
        }
        forall k | 0 <= k < |opts| - 1 && writes(opts[k]) && (forall m :: k < m < |opts| ==> !writes(opts[m]))
          ensures get(Applied(opts)) == get(Set(Defaults, opts[k]))
        {
          assert front[k] == opts[k];
          assert forall m :: k < m < |front| ==> front[m] == opts[m];
        }
      }
    }
  }

  function WritesTestnet(s: Setter): bool { s.WithTestnet? }
  function GetTestnet(o: PaymentOptions): bool { o.testnet }
  function WritesTimeout(s: Setter): bool { s.WithMaxTimeoutSeconds? }
  function GetTimeout(o: PaymentOptions): int { o.maxTimeoutSeconds }

  /** Testnet unless an option says otherwise; the last WithTestnet decides. */
  lemma TestnetIsLastSetting(opts: seq<Setter>)
    ensures (forall k :: 0 <= k < |opts| ==> !opts[k].WithTestnet?) ==> Applied(opts).testnet
    ensures forall k :: 0 <= k < |opts| && opts[k].WithTestnet? && (forall m :: k < m < |opts| ==> !opts[m].WithTestnet?) ==>
              Applied(opts).testnet == opts[k].testnet
  {
    LastSetterWins(opts, WritesTestnet, GetTestnet);
  }

  /** Sixty seconds unless an option says otherwise; the last WithMaxTimeoutSeconds decides. */
  lemma TimeoutIsLastSetting(opts: seq<Setter>)
    ensures (forall k :: 0 <= k < |opts| ==> !opts[k].WithMaxTimeoutSeconds?) ==> Applied(opts).maxTimeoutSeconds == 60
    ensures forall k :: 0 <= k < |opts| && opts[k].WithMaxTimeoutSeconds? && (forall m :: k < m < |opts| ==> !opts[m].WithMaxTimeoutSeconds?) ==>
              Applied(opts).maxTimeoutSeconds == opts[k].seconds
  {
    LastSetterWins(opts, WritesTimeout, GetTimeout);
  }

  // -------------------------------------------------------- requirements

  /** The chain the payment is made on. */
  function Network(testnet: bool): (n: string)
    ensures n == TestnetNetwork <==> testnet
    ensures n == MainnetNetwork <==> !testnet
  {
    if testnet then TestnetNetwork else MainnetNetwork
  }

  /** The USDC contract deployed on a network. */
  function UsdcOn(network: string): string
  {
    if network == TestnetNetwork then TestnetUsdc else MainnetUsdc
  }

  /** The EIP-712 domain of the token, `extra` in the requirements. */
  datatype TokenInfo = TokenInfo(name: string, version: string)

  /** setUSDCInfoV1: the token is named "USDC" on the test network and "USD Coin" on mainnet, version "2" on both. */
  function UsdcInfo(testnet: bool): (info: TokenInfo)
    ensures info.version == "2"
    ensures info.name == "USDC" <==> testnet
    ensures info.name == "USD Coin" <==> !testnet
  {
    TokenInfo(if testnet then "USDC" else "USD Coin", "2")
  }

  /** The resource paid for: the configured one, else the root URL followed by the request path. */
  function Resource(options: PaymentOptions, path: string): (r: string)
    ensures options.resource != "" ==> r == options.resource
    ensures options.resource == "" ==> r == options.resourceRootUrl + path && HasPrefix(r, options.resourceRootUrl)
  {
    if options.resource == "" then options.resourceRootUrl + path else options.resource
  }

  /** PaymentRequirementsV1. */
  datatype Requirements = Requirements(
    scheme: string,
    network: string,
    maxAmountRequired: string,
    resource: string,
    description: string,
    mimeType: string,
    payTo: string,
    maxTimeoutSeconds: int,
    asset: string,
    outputSchema: Option<string>,
    extra: Option<TokenInfo>)

  /** The requirements a route's payment must meet. */
  function BuildRequirements(options: PaymentOptions, amount: nat, address: string, path: string): (r: Requirements)
    ensures r.scheme == "exact" && r.payTo == address && r.maxTimeoutSeconds == options.maxTimeoutSeconds
    ensures r.asset == UsdcOn(r.network) && (r.network == TestnetNetwork <==> options.testnet)
    ensures r.extra == Some(UsdcInfo(r.network == TestnetNetwork))
    ensures r.maxAmountRequired == NatToDecimal(amount) && DecimalValue(r.maxAmountRequired) == amount
    ensures r.resource == Resource(options, path)
    ensures r.description == options.description && r.mimeType == options.mimeType
    ensures r.outputSchema == options.outputSchema
  {
    DecimalRoundTrip(amount);
    var network := Network(options.testnet);
    Requirements("exact", network, NatToDecimal(amount), Resource(options, path), options.description,
                 options.mimeType, address, options.maxTimeoutSeconds, UsdcOn(network), options.outputSchema,
                 Some(UsdcInfo(options.testnet)))
  }

  function RequirementsJson(r: Requirements): Json
  {
    JObject([("scheme", JString(r.scheme)), ("network", JString(r.network)),
             ("maxAmountRequired", JString(r.maxAmountRequired)), ("resource", JString(r.resource)),
             ("description", JString(r.description)), ("mimeType", JString(r.mimeType)),
             ("payTo", JString(r.payTo)), ("maxTimeoutSeconds", JInt(r.maxTimeoutSeconds)),
             ("asset", JString(r.asset)),
             ("outputSchema", if r.outputSchema.Some? then JString(r.outputSchema.value) else JNull),
             ("extra", if r.extra.Some? then JObject([("name", JString(r.extra.value.name)),
                                                      ("version", JString(r.extra.value.version))]) else JNull)])
  }

  // --------------------------------------------------------------- ladder

  /** The facilitator's answer to verify: a transport error, no response, or a response. */
  datatype VerifyOutcome =
    | VerifyError(message: string)
    | NoVerifyResponse
    | VerifyResponse(isValid: bool, invalidReason: string)

  /** The facilitator's answer to settle; `json` is the marshalled response. */
  datatype SettleOutcome =
    | SettleError(message: string)
    | NoSettleResponse
    | SettleResponse(success: bool, errorReason: string, json: seq<Base64.Byte>)

  /** A call made to the facilitator. */
  datatype Call = Verify | Settle

  /** Where the ladder ends: a rejection with its message, or the payload and the settle response. */
  datatype Verdict =
    | Reject(message: string, calls: seq<Call>)
    | Accept(payload: seq<Base64.Byte>, settleJson: seq<Base64.Byte>)

  const HeaderRequired := "X-PAYMENT header is required"
  const InvalidHeader := "invalid X-PAYMENT header"
  const WrongVersion := "invalid x402 version for v1 route"
  const BadPayload := "failed to decode payment payload"

  /** The verify failure message: the error text, else the invalid reason, else "invalid payment". */
  function VerifyMessage(v: VerifyOutcome): string
  {
    match v
    case VerifyError(m) => m
    case NoVerifyResponse => "invalid payment"
    case VerifyResponse(_, reason) => if reason != "" then reason else "invalid payment"
  }

  /** The settle failure message: the error text, else the error reason, else "payment settlement failed". */
  function SettleMessage(s: SettleOutcome): string
  {
    match s
    case SettleError(m) => m
    case NoSettleResponse => "payment settlement failed"
    case SettleResponse(_, reason, _) => if reason != "" then reason else "payment settlement failed"
  }

  predicate Valid(v: VerifyOutcome) { v.VerifyResponse? && v.isValid }
  predicate Settled(s: SettleOutcome) { s.SettleResponse? && s.success }

  /** The checks made before the facilitator is contacted. */
  predicate LocallyValid(header: string, detectVersion: seq<Base64.Byte> -> Option<int>, parses: seq<Base64.Byte> -> bool)
  {
    header != "" && Base64.Decode(Base64.Standard, header).Some?
    && detectVersion(Base64.Decode(Base64.Standard, header).value) == Some(1)
    && parses(Base64.Decode(Base64.Standard, header).value)
  }

  /**
   * The checks of Payment in order: a header, valid base64, version 1, a
   * payload that parses, a valid verify, a successful settle.
   */
  function Ladder(header: string, detectVersion: seq<Base64.Byte> -> Option<int>, parses: seq<Base64.Byte> -> bool,
                  verify: VerifyOutcome, settle: SettleOutcome): (r: Verdict)
    ensures header == "" ==> r == Reject(HeaderRequired, [])
    ensures header != "" && Base64.Decode(Base64.Standard, header).None? ==> r == Reject(InvalidHeader, [])
    ensures r.Reject? && Settle in r.calls ==> Valid(verify) && r.message == SettleMessage(settle)
    ensures r.Reject? && r.calls == [Verify] ==> !Valid(verify) && r.message == VerifyMessage(verify)
    ensures r.Reject? ==> r.calls in {[], [Verify], [Verify, Settle]}
    ensures (r.Reject? && r.calls == []) <==> !LocallyValid(header, detectVersion, parses)
    ensures r.Accept? <==> LocallyValid(header, detectVersion, parses) && Valid(verify) && Settled(settle)
    ensures r.Accept? ==> r.payload == Base64.Decode(Base64.Standard, header).value && r.settleJson == settle.json
  {
    if header == "" then Reject(HeaderRequired, [])
    else match Base64.Decode(Base64.Standard, header)
      case None => Reject(InvalidHeader, [])
      case Some(decoded) =>
        if detectVersion(decoded) != Some(1) then Reject(WrongVersion, [])
        else if !parses(decoded) then Reject(BadPayload, [])
        else if !Valid(verify) then Reject(VerifyMessage(verify), [Verify])
        else if !Settled(settle) then Reject(SettleMessage(settle), [Verify, Settle])
        else Accept(decoded, settle.json)
  }

  /** A client is a browser when it accepts HTML and calls itself Mozilla. */
  predicate IsBrowser(accept: string, userAgent: string)
  {
    Contains(accept, "text/html") && Contains(userAgent, "Mozilla")
  }

  /** amount.Text('f', 6): whole units, a point, six decimals. */
  function AmountText(amount: nat): string
  {
    NatToDecimal(amount / 1000000) + "." + SixDigits(amount % 1000000)
  }

  /** The fraction's digits, zero-filled on the left to six places. */
  function SixDigits(n: nat): string
    requires n < 1000000
  {
    var d := NatToDecimal(n);
    Zeros(6 - |d|) + d
  }

  function Zeros(k: int): (s: string)
    ensures |s| == (if k < 0 then 0 else k)
    decreases k
  {
    if k <= 0 then "" else "0" + Zeros(k - 1)
  }

  /** The JSON body of a non-browser rejection; an empty message becomes the header-required one. */
  function RejectionBody(message: string, r: Requirements): (j: Json)
    ensures j.JObject? && |j.fields| == 3 && j.fields[0].0 == "error"
    ensures j.fields[0].1 == JString(if message == "" then HeaderRequired else message)
  {
    JObject([("error", JString(if message == "" then HeaderRequired else message)),
             ("accepts", JArray([RequirementsJson(r)])),
             ("x402Version", JInt(X402Version))])
  }

  /** The data handed to payment_required.html; a description stored on the context wins over the option. */
  function PaywallData(resource: string, description: string, amount: nat, message: string, testnet: bool,
                       r: Requirements, ctxResourceType: string, ctxFilename: string, ctxTitle: string, ctxCover: string): Json
  {
    JObject([("Resource", JString(resource)), ("Description", JString(description)),
             ("AmountFormatted", JString(AmountText(amount))), ("ErrorMessage", JString(message)),
             ("ResourceType", JString(ctxResourceType)), ("OriginalFilename", JString(ctxFilename)),
             ("Title", JString(ctxTitle)), ("CoverURL", JString(ctxCover)), ("IsTestnet", JBool(testnet)),
             ("PaymentRequirements", RequirementsJson(r)), ("PaymentRequirementsJSON", RequirementsJson(r))])
  }

  /**
   * respondPaymentRequiredV1: a browser gets the paywall page with 402 and
   * the request is aborted; any other client gets the JSON body with 402.
   */
  method RespondPaymentRequired(c: Context, browser: bool, resource: string, amount: nat, options: PaymentOptions,
                                r: Requirements, message: string)
    modifies c
    ensures browser ==>
              var description := if c.GetString("Description") != "" then c.GetString("Description") else options.description;
              c.Snapshot() == Rendered(old(c.Snapshot()), StatusPaymentRequired,
                                       HtmlRender("payment_required.html",
                                                  PaywallData(resource, description, amount, message, options.testnet, r,
                                                              c.GetString("ResourceType"), c.GetString("OriginalFilename"),
                                                              c.GetString("Title"), c.GetString("CoverURL")))).(aborted := true)
    ensures !browser ==>
              c.Snapshot() == Rendered(old(c.Snapshot()).(aborted := true), StatusPaymentRequired,
                                       JsonRender(RejectionBody(message, r)))
    ensures c.aborted && c.keys == old(c.keys)
  {
    if browser {
      var description := options.description;
      if c.GetString("Description") != "" {
        description := c.GetString("Description");
      }
      c.HTML(StatusPaymentRequired, "payment_required.html",
             PaywallData(resource, description, amount, message, options.testnet, r,
                         c.GetString("ResourceType"), c.GetString("OriginalFilename"), c.GetString("Title"),
                         c.GetString("CoverURL")));
      c.Abort();
      return;
    }
    c.AbortWithStatusJSON(StatusPaymentRequired, RejectionBody(message, r));
  }

  /**
   * Payment: announces the protocol, builds the requirements, runs the
   * ladder.  On success it returns the decoded payload and the settle
   * response and sets X-PAYMENT-RESPONSE to the settle response in base64;
   * on any rejection it answers 402 and returns nothing.
   */
  method Payment(c: Context, amount: nat, address: string, opts: seq<Setter>,
                 detectVersion: seq<Base64.Byte> -> Option<int>, parses: seq<Base64.Byte> -> bool,
                 verify: VerifyOutcome, settle: SettleOutcome)
    returns (paid: Option<(seq<Base64.Byte>, seq<Base64.Byte>)>)
    modifies c
    ensures var verdict := Ladder(c.GetHeader("X-PAYMENT"), detectVersion, parses, verify, settle);
            (paid.Some? <==> verdict.Accept?)
            && (verdict.Accept? ==>
                  paid.value == (verdict.payload, verdict.settleJson)
                  && c.Snapshot() == WithHeader(WithHeader(old(c.Snapshot()), "Payment-Protocol", "X402"),
                                                "X-PAYMENT-RESPONSE", Base64.Encode(Base64.Standard, verdict.settleJson)))
            && (verdict.Reject? ==> c.aborted && |c.renders| == |old(c.renders)| + 1)
    ensures var verdict := Ladder(c.GetHeader("X-PAYMENT"), detectVersion, parses, verify, settle);
            (verdict.Reject? ==>
               c.written && c.status == (if old(c.written) then old(c.status) else StatusPaymentRequired))
            && (verdict.Accept? ==>
                  c.aborted == old(c.aborted) && c.written == old(c.written) && c.status == old(c.status)
                  && c.renders == old(c.renders) && c.keys == old(c.keys))
    ensures var verdict := Ladder(c.GetHeader("X-PAYMENT"), detectVersion, parses, verify, settle);
            verdict.Reject? && !IsBrowser(c.GetHeader("Accept"), c.GetHeader("User-Agent")) ==>
              c.Snapshot() == Rendered(WithHeader(old(c.Snapshot()), "Payment-Protocol", "X402").(aborted := true),
                                       StatusPaymentRequired,
                                       JsonRender(RejectionBody(verdict.message,
                                                                BuildRequirements(Applied(opts), amount, address, c.path))))
  {
    var options := ApplyOptions(opts);
    c.Header("Payment-Protocol", "X402");
    var requirements := BuildRequirements(options, amount, address, c.path);
    var browser := IsBrowser(c.GetHeader("Accept"), c.GetHeader("User-Agent"));
    var verdict := Ladder(c.GetHeader("X-PAYMENT"), detectVersion, parses, verify, settle);
    if verdict.Reject? {
      RespondPaymentRequired(c, browser, requirements.resource, amount, options, requirements, verdict.message);
      return None;
    }
    c.Header("X-PAYMENT-RESPONSE", Base64.Encode(Base64.Standard, verdict.settleJson));
    return Some((verdict.payload, verdict.settleJson));
  }
}
