/**
 * The decision logic of the datalayer endpoint (`handler` in
 * api/collect-datalayer.js): a straight chain of early returns from an
 * inbound request to a response, with the relay to the data store reduced
 * to the payload it would carry and a boolean for its outcome.
 */
module Handler {
  import opened Options
  import opened Sanitizer

  /** Origin prefixes the endpoint accepts, in the order they are tried. */
  const AllowedDomains: seq<string> := ["https://seusite.com", "https://www.seusite.com"]

  /** The two CORS headers that every response carries unchanged. */
  const AllowMethods: string := "POST, OPTIONS"
  const AllowHeaders: string := "Content-Type, x-client-token"

  /** The largest batch that is relayed. */
  const MaxBatch: nat := 1000

  const MethodNotAllowedMessage: string := "Method not allowed"
  const InvalidRefererMessage: string := "Forbidden - invalid referer"
  const InvalidTokenMessage: string := "Forbidden - invalid token"
  const InvalidPayloadMessage: string := "Invalid payload: datalayer array missing"
  const TooLargeMessage: string := "Payload too large"
  const UpstreamFailureMessage: string := "Failed to save to Supabase"

  /** What the request body offers under `datalayer`. */
  datatype Payload<V> =
    | NoBody                               // no request body at all
    | NotAnArray                           // a body whose `datalayer` is missing or not an array
    | Datalayer(records: seq<Record<V>>)   // an array of records

  datatype Request<V> = Request(
    httpMethod: string,
    referer: Option<string>,   // the `referer` header
    token: Option<string>,     // the `x-client-token` header
    body: Payload<V>)

  datatype ResponseBody =
    | Empty                    // no body
    | Error(message: string)   // a JSON object carrying an error message
    | Saved                    // a JSON object reporting success

  datatype Response<V> = Response(
    status: nat,
    allowMethods: string,
    allowHeaders: string,
    allowOrigin: string,
    body: ResponseBody,
    relayed: Option<seq<Record<V>>>)   // the batch sent to the data store, if the relay happened

  /** Whether `p` is a prefix of `s`. */
  function StartsWith(s: string, p: string): (r: bool)
    ensures r <==> |p| <= |s| && s[..|p|] == p
  {
    p <= s
  }

  /** The first of `domains`, in list order, that is a prefix of the referer, if any. */
  function FindAllowedOrigin(domains: seq<string>, referer: string): (r: Option<string>)
    ensures r.Some? ==> r.value in domains && StartsWith(referer, r.value)
    ensures r.None? <==> forall d :: d in domains ==> !StartsWith(referer, d)
  {
    if domains == [] then None
    else if StartsWith(referer, domains[0]) then Some(domains[0])
    else FindAllowedOrigin(domains[1..], referer)
  }

  /** The search answers with the FIRST domain that is a prefix of the referer. */
  lemma {:induction false} FindAllowedOriginIsFirst(domains: seq<string>, referer: string, i: nat)
    requires i < |domains| && StartsWith(referer, domains[i])
    requires forall j :: 0 <= j < i ==> !StartsWith(referer, domains[j])
    ensures FindAllowedOrigin(domains, referer) == Some(domains[i])
  {
    if 0 < i {
      assert !StartsWith(referer, domains[0]);
      FindAllowedOriginIsFirst(domains[1..], referer, i - 1);
    }
  }

  /** The referer header, or `''` when the header is absent. */
  function RefererOrEmpty(referer: Option<string>): (r: string)
    ensures referer.Some? ==> r == referer.value
    ensures r == "" <==> referer == None || referer == Some("")
    ensures referer == None ==> forall d :: d in AllowedDomains ==> !StartsWith(r, d)
  {
    if referer.Some? then referer.value else ""
  }

  /** The allowed domain that the request's referer starts with, if any. */
  function AllowedOrigin<V>(req: Request<V>): (r: Option<string>)
    ensures r.Some? ==> req.referer.Some? && r.value in AllowedDomains && StartsWith(req.referer.value, r.value)
    ensures r.Some? ==> r.value != ""
    ensures r.None? <==> forall i :: 0 <= i < |AllowedDomains| ==> !StartsWith(RefererOrEmpty(req.referer), AllowedDomains[i])
  {
    FindAllowedOrigin(AllowedDomains, RefererOrEmpty(req.referer))
  }

  /** Whether a JavaScript value that is a string or `undefined` is truthy. */
  function Truthy(s: Option<string>): (r: bool)
    ensures r <==> s != None && s != Some("")
  {
    s.Some? && s.value != ""
  }

  /** The checks a non-OPTIONS request goes through, in this order. */
  datatype Gate = MethodGate | RefererGate | TokenGate | ShapeGate | SizeGate

  const GateOrder: seq<Gate> := [MethodGate, RefererGate, TokenGate, ShapeGate, SizeGate]

  /**
   * Whether `req` gets past gate `g`, judged on its own. The referer gate passes
   * when some allowed domain prefixes the referer; the token gate only when a
   * non-empty secret is configured and the header equals it; the size gate lets
   * through any batch of at most 1000 records.
   */
  function Passes<V>(req: Request<V>, clientToken: Option<string>, g: Gate): (r: bool)
    ensures g == RefererGate ==>
      (r <==> exists i :: 0 <= i < |AllowedDomains| && StartsWith(RefererOrEmpty(req.referer), AllowedDomains[i]))
    ensures g == TokenGate ==> (r <==> Truthy(clientToken) && req.token == clientToken)
    ensures g == SizeGate && req.body.Datalayer? ==> (r <==> |req.body.records| <= MaxBatch)
  {
    match g
    case MethodGate => req.httpMethod == "POST"
    case RefererGate => Truthy(AllowedOrigin(req))
    case TokenGate => Truthy(req.token) && req.token == clientToken
    case ShapeGate => req.body.Datalayer?
    case SizeGate => !(req.body.Datalayer? && |req.body.records| > MaxBatch)
  }

  function StatusOf(g: Gate): nat
  {
    match g
    case MethodGate => 405
    case RefererGate => 403
    case TokenGate => 403
    case ShapeGate => 400
    case SizeGate => 413
  }

  function MessageOf(g: Gate): string
  {
    match g
    case MethodGate => MethodNotAllowedMessage
    case RefererGate => InvalidRefererMessage
    case TokenGate => InvalidTokenMessage
    case ShapeGate => InvalidPayloadMessage
    case SizeGate => TooLargeMessage
  }

  /** `resp` is the rejection that gate `g` produces, with no relay. */
  predicate RejectedBy<V>(resp: Response<V>, g: Gate)
  {
    resp.status == StatusOf(g) && resp.body == Error(MessageOf(g)) && resp.relayed == None
  }

  /**
   * The handler. `clientToken` is the configured shared secret (absent when the
   * environment variable is unset); `upstreamOk` is whether the data store
   * answered the relay with a success status.
   */
  function Handle<V>(req: Request<V>, clientToken: Option<string>, upstreamOk: bool): (resp: Response<V>)
    ensures resp.allowMethods == AllowMethods && resp.allowHeaders == AllowHeaders
    ensures resp.status in {200, 400, 403, 405, 413, 500}
    ensures resp.relayed.Some? ==> req.body.Datalayer? && resp.relayed.value == Sanitize(req.body.records)
    ensures resp.relayed.Some? ==> |resp.relayed.value| <= MaxBatch
  {
    var origin := AllowedOrigin(req);
    var echo := if origin.Some? then origin.value else "";
    var reply := (status: nat, body: ResponseBody) => Response(status, AllowMethods, AllowHeaders, echo, body, None);
    if req.httpMethod == "OPTIONS" then reply(200, Empty)
    else if req.httpMethod != "POST" then reply(405, Error(MethodNotAllowedMessage))
    else if !Truthy(origin) then reply(403, Error(InvalidRefererMessage))
    else if !Truthy(req.token) || req.token != clientToken then reply(403, Error(InvalidTokenMessage))
    else if !req.body.Datalayer? then reply(400, Error(InvalidPayloadMessage))
    else if |req.body.records| > MaxBatch then reply(413, Error(TooLargeMessage))
    else
      var sent := Sanitize(req.body.records);
      if !upstreamOk then reply(500, Error(UpstreamFailureMessage)).(relayed := Some(sent))
      else reply(200, Saved).(relayed := Some(sent))
  }

  /**
   * Every response echoes the first allowed domain that prefixes the referer,
   * or `''` when none does, whichever branch answers.
   */
  lemma EchoedOrigin<V>(req: Request<V>, clientToken: Option<string>, upstreamOk: bool, i: nat)
    requires i < |AllowedDomains| && StartsWith(RefererOrEmpty(req.referer), AllowedDomains[i])
    requires forall j :: 0 <= j < i ==> !StartsWith(RefererOrEmpty(req.referer), AllowedDomains[j])
    ensures Handle(req, clientToken, upstreamOk).allowOrigin == AllowedDomains[i]
  {
    FindAllowedOriginIsFirst(AllowedDomains, RefererOrEmpty(req.referer), i);
  }

  lemma EchoedOriginEmpty<V>(req: Request<V>, clientToken: Option<string>, upstreamOk: bool)
    requires forall d :: d in AllowedDomains ==> !StartsWith(RefererOrEmpty(req.referer), d)
    ensures Handle(req, clientToken, upstreamOk).allowOrigin == ""
  {
  }

  /** A missing referer matches no allowed domain, so a POST without one is refused. */
  lemma MissingRefererRefused<V>(req: Request<V>, clientToken: Option<string>, upstreamOk: bool)
    requires req.referer == None && req.httpMethod == "POST"
    ensures Handle(req, clientToken, upstreamOk).allowOrigin == ""
    ensures RejectedBy(Handle(req, clientToken, upstreamOk), RefererGate)
  {
    assert !StartsWith("", AllowedDomains[0]) && !StartsWith("", AllowedDomains[1]);
  }

  /** A preflight is answered 200 with no body and no relay, whatever else the request holds. */
  lemma PreflightAlwaysOk<V>(req: Request<V>, clientToken: Option<string>, upstreamOk: bool)
    requires req.httpMethod == "OPTIONS"
    ensures var resp := Handle(req, clientToken, upstreamOk);
      resp.status == 200 && resp.body == Empty && resp.relayed == None
  {
  }

  /**
   * Outside a preflight, the first gate that fails decides the response:
   * gate `GateOrder[i]` answers exactly when it fails and every earlier gate passes.
   */
  lemma FirstFailingGateDecides<V>(req: Request<V>, clientToken: Option<string>, upstreamOk: bool, i: nat)
    requires req.httpMethod != "OPTIONS" && i < |GateOrder|
    ensures RejectedBy(Handle(req, clientToken, upstreamOk), GateOrder[i]) <==>
      !Passes(req, clientToken, GateOrder[i]) &&
      forall j :: 0 <= j < i ==> Passes(req, clientToken, GateOrder[j])
  {
    var resp := Handle(req, clientToken, upstreamOk);
    assert GateOrder[0] == MethodGate && GateOrder[1] == RefererGate && GateOrder[2] == TokenGate;
    assert GateOrder[3] == ShapeGate && GateOrder[4] == SizeGate;
    if RejectedBy(resp, GateOrder[i]) {
      forall j | 0 <= j < i
        ensures Passes(req, clientToken, GateOrder[j])
      {
        assert !RejectedBy(resp, GateOrder[j]);
      }
    }
  }

  /**
   * The relay happens exactly when every gate passes; it carries the sanitized
   * batch, and the upstream outcome alone decides between 200 and 500.
   */
  lemma RelayOnlyWhenAllGatesPass<V>(req: Request<V>, clientToken: Option<string>, upstreamOk: bool)
    requires req.httpMethod != "OPTIONS"
    ensures var resp := Handle(req, clientToken, upstreamOk);
      resp.relayed.Some? <==> forall g :: g in GateOrder ==> Passes(req, clientToken, g)
    ensures var resp := Handle(req, clientToken, upstreamOk);
      resp.relayed.Some? ==>
        && resp.relayed == Some(Sanitize(req.body.records))
        && (upstreamOk ==> resp.status == 200 && resp.body == Saved)
        && (!upstreamOk ==> resp.status == 500 && resp.body == Error(UpstreamFailureMessage))
  {
    var resp := Handle(req, clientToken, upstreamOk);
    if forall g :: g in GateOrder ==> Passes(req, clientToken, g) {
      assert GateOrder[0] in GateOrder && GateOrder[1] in GateOrder && GateOrder[2] in GateOrder;
      assert GateOrder[3] in GateOrder && GateOrder[4] in GateOrder;
    }
    if resp.relayed.Some? {
      forall g | g in GateOrder
        ensures Passes(req, clientToken, g)
      {
      }
    }
  }

  /** Without a configured, non-empty secret no request is ever relayed. */
  lemma UnsetTokenRefusesAll<V>(req: Request<V>, clientToken: Option<string>, upstreamOk: bool)
    requires !Truthy(clientToken)
    ensures Handle(req, clientToken, upstreamOk).relayed == None
  {
  }

  /** The size gate refuses more than 1000 records: a batch of 1000 is relayed and one of 1001 is refused. */
  lemma SizeBoundary<V>(req: Request<V>, clientToken: Option<string>, upstreamOk: bool)
    requires req.httpMethod == "POST" && Truthy(AllowedOrigin(req))
    requires Truthy(req.token) && req.token == clientToken && req.body.Datalayer?
    ensures |req.body.records| == 1000 ==> Handle(req, clientToken, upstreamOk).relayed.Some?
    ensures |req.body.records| == 1001 ==> RejectedBy(Handle(req, clientToken, upstreamOk), SizeGate)
  {
  }

  /** What reaches the data store holds no sensitive key and every other entry of the input. */
  lemma RelayedPayloadIsClean<V>(req: Request<V>, clientToken: Option<string>, upstreamOk: bool)
    requires Handle(req, clientToken, upstreamOk).relayed.Some?
    ensures var sent := Handle(req, clientToken, upstreamOk).relayed.value;
      && req.body.Datalayer?
      && |sent| == |req.body.records|
      && (forall i, j :: 0 <= i < |sent| && 0 <= j < |sent[i]| ==> !IsSensitive(sent[i][j].0))
      && (forall i, j ::
            0 <= i < |sent| && 0 <= j < |req.body.records[i]| && !IsSensitive(req.body.records[i][j].0)
            ==> req.body.records[i][j] in sent[i])
  {
  }

  /** A valid click event from the site is relayed without its e-mail field and acknowledged. */
  lemma ClickEventScenario(token: string)
    requires token != ""
    ensures var req := Request("POST", Some("https://seusite.com/page"), Some(token),
                               Datalayer([[("event", "click"), ("email", "a@b.com")]]));
      var resp := Handle(req, Some(token), true);
      && resp.status == 200 && resp.body == Saved
      && resp.allowOrigin == "https://seusite.com"
      && resp.relayed == Some([[("event", "click")]])
  {
    ClickEventExample();
    assert StartsWith("https://seusite.com/page", "https://seusite.com");
  }

  /** Prefix matching also admits a referer whose host merely begins with an allowed origin. */
  lemma LookalikeHostAdmitted()
    ensures FindAllowedOrigin(AllowedDomains, "https://seusite.com.example.net/") == Some("https://seusite.com")
  {
    assert StartsWith("https://seusite.com.example.net/", "https://seusite.com");
  }
}
