/** The go-kit HTTP transport: the client constructor (instance
    normalisation, one URL per route, a limiter shared by both endpoints and
    a breaker of their own), the response decoders, the generic response
    encoder, and the server's routes. `url.Parse`, the JSON codec and the
    network round trip are parameters. */
module KitTransport {
  import opened Types
  import opened KitService
  import opened KitEndpoint

  // ---------------------------------------------------------------------
  // Instance normalisation

  predicate HasPrefix(s: string, prefix: string) {
    |prefix| <= |s| && s[..|prefix|] == prefix
  }

  /** The instance string `NewHTTPClient` hands to `url.Parse`: unchanged if
      it starts with "http", otherwise with "http://" in front. */
  function NormalizeInstance(instance: string): (r: string)
    ensures HasPrefix(r, "http")
    ensures HasPrefix(instance, "http") ==> r == instance
    ensures !HasPrefix(instance, "http") ==> r == "http://" + instance
  {
    if HasPrefix(instance, "http") then instance else "http://" + instance
  }

  /** Normalising twice is normalising once, and the original instance is
      always a suffix of the result. */
  lemma NormalizeIdempotent(instance: string)
    ensures NormalizeInstance(NormalizeInstance(instance)) == NormalizeInstance(instance)
    ensures var r := NormalizeInstance(instance); r[|r| - |instance|..] == instance
  {
  }

  // ---------------------------------------------------------------------
  // URLs

  /** The fields of a `url.URL` value. `User` is a pointer in the source;
      copying the struct shares it, which is what equality of the field
      stands for here. */
  datatype URL = URL(
    scheme: string, opaqueData: string, user: Option<string>, host: string, path: string,
    rawPath: string, forceQuery: bool, rawQuery: string, fragment: string, rawFragment: string)

  /** `copyURL`: a copy of `base` with its path replaced. */
  function CopyURL(base: URL, path: string): (next: URL)
    ensures next.path == path
    ensures next.(path := base.path) == base
  {
    base.(path := path)
  }

  /** Copying keeps nothing of an earlier path: the last path wins, and
      copying with the base's own path gives the base back. */
  lemma CopyURLLastPathWins(base: URL, p: string, q: string)
    ensures CopyURL(CopyURL(base, p), q) == CopyURL(base, q)
    ensures CopyURL(base, base.path) == base
    ensures CopyURL(base, p).host == base.host && CopyURL(base, p).scheme == base.scheme
  {
  }

  // ---------------------------------------------------------------------
  // Client

  /** One client endpoint: its HTTP method, its URL and its decorators,
      innermost first. */
  datatype ClientEndpoint = ClientEndpoint(verb: string, url: URL, layers: seq<Layer>)

  datatype Client = Client(aggregate: ClientEndpoint, calculate: ClientEndpoint)

  /** The client's single limiter: one event per second, burst 100. */
  const ClientLimiter: Layer := RateLimiter(0, 1.0, 100)

  /** `NewHTTPClient`: parse the normalised instance; on success both
      endpoints POST to a copy of the URL with their route as path, behind
      the shared limiter and a breaker of their own. */
  function NewHTTPClient(instance: string, parse: string -> Result<URL>): (r: Result<Client>)
    ensures parse(NormalizeInstance(instance)).Err? ==> r == Err(parse(NormalizeInstance(instance)).error)
    ensures parse(NormalizeInstance(instance)).Ok? ==>
      var u := parse(NormalizeInstance(instance)).value;
      && r.Ok?
      && r.value.aggregate.verb == "POST" && r.value.calculate.verb == "POST"
      && r.value.aggregate.url == CopyURL(u, "/aggregate")
      && r.value.calculate.url == CopyURL(u, "/invoice")
  {
    match parse(NormalizeInstance(instance))
    case Err(e) => Err(e)
    case Ok(u) =>
      Ok(Client(
        ClientEndpoint("POST", CopyURL(u, "/aggregate"), [ClientLimiter, CircuitBreaker(1, "Aggregate", 30)]),
        ClientEndpoint("POST", CopyURL(u, "/invoice"), [ClientLimiter, CircuitBreaker(2, "Concat", 10)])))
  }

  /** In the client, the limiter is one instance shared by both endpoints,
      each endpoint has a breaker of its own wrapped around it, and the two
      breakers are different instances. */
  lemma ClientGuards(instance: string, parse: string -> Result<URL>)
    requires NewHTTPClient(instance, parse).Ok?
    ensures var c := NewHTTPClient(instance, parse).value;
      && |c.aggregate.layers| == 2 && |c.calculate.layers| == 2
      && c.aggregate.layers[0] == c.calculate.layers[0] == ClientLimiter
      && c.aggregate.layers[1].CircuitBreaker? && c.calculate.layers[1].CircuitBreaker?
      && c.aggregate.layers[1].guard != c.calculate.layers[1].guard
      && c.aggregate.layers[1].guard != ClientLimiter.guard
      && c.calculate.layers[1].guard != ClientLimiter.guard
  {
  }

  /** What an HTTP response offers the decoders. */
  datatype HttpResponse = HttpResponse(statusCode: int, status: string, body: string)

  /** `decodeHTTPAggregateResponse`: a status other than 200 is an error
      carrying the status text, and the body is not decoded; otherwise the
      decoded response and the decoder's error. */
  function DecodeHTTPAggregateResponse(json: string -> Decoded<AggregateResponse>, r: HttpResponse): (reply: Reply)
    ensures r.statusCode != 200 ==> reply == Reply(None, Some(Failure(r.status)))
    ensures r.statusCode == 200 ==> reply == Reply(Some(AggregateResp(json(r.body).value)), json(r.body).err)
  {
    if r.statusCode != 200 then Reply(None, Some(Failure(r.status)))
    else
      var decoded := json(r.body);
      Reply(Some(AggregateResp(decoded.value)), decoded.err)
  }

  /** `decodeHTTPCalculateResponse`: as the aggregate decoder. */
  function DecodeHTTPCalculateResponse(json: string -> Decoded<CalculateResponse>, r: HttpResponse): (reply: Reply)
    ensures r.statusCode != 200 ==> reply == Reply(None, Some(Failure(r.status)))
    ensures r.statusCode == 200 ==> reply == Reply(Some(CalculateResp(json(r.body).value)), json(r.body).err)
  {
    if r.statusCode != 200 then Reply(None, Some(Failure(r.status)))
    else
      var decoded := json(r.body);
      Reply(Some(CalculateResp(decoded.value)), decoded.err)
  }

  /** The decoders never look at the body of a response that is not 200:
      two such responses with the same status give the same reply. */
  lemma DecodersSkipBodyOnError(aj: string -> Decoded<AggregateResponse>, cj: string -> Decoded<CalculateResponse>,
                                r1: HttpResponse, r2: HttpResponse)
    requires r1.statusCode != 200 && r2.statusCode != 200 && r1.status == r2.status
    ensures DecodeHTTPAggregateResponse(aj, r1) == DecodeHTTPAggregateResponse(aj, r2)
    ensures DecodeHTTPCalculateResponse(cj, r1) == DecodeHTTPCalculateResponse(cj, r2)
  {
  }

  /** The network side of a client endpoint (go-kit's HTTP client, not part
      of this model): a round trip either fails or yields a response, which
      the endpoint's decoder turns into its reply. */
  function ClientInner(url: URL, roundTrip: (URL, Request) -> Result<HttpResponse>, decode: HttpResponse -> Reply): Endpoint {
    req =>
      match roundTrip(url, req)
      case Err(e) => Done(Reply(None, Some(e)), [])
      case Ok(resp) => Done(decode(resp), [])
  }

  /** The client's endpoint set: each endpoint's decorators around its
      network call. */
  function ClientSet(c: Client, gate: Gate, roundTrip: (URL, Request) -> Result<HttpResponse>,
                     aggregateJson: string -> Decoded<AggregateResponse>,
                     calculateJson: string -> Decoded<CalculateResponse>): Set {
    Set(
      Build(c.aggregate.layers, gate,
            ClientInner(c.aggregate.url, roundTrip, (r: HttpResponse) => DecodeHTTPAggregateResponse(aggregateJson, r))),
      Build(c.calculate.layers, gate,
            ClientInner(c.calculate.url, roundTrip, (r: HttpResponse) => DecodeHTTPCalculateResponse(calculateJson, r))))
  }

  /** Because the limiter is shared, its rejection stops both client
      endpoints, with its error and no network call; a breaker rejection
      stops only its own endpoint, while the other still reaches the
      network. */
  lemma ClientSharesLimiter(instance: string, parse: string -> Result<URL>, gate: Gate,
                            roundTrip: (URL, Request) -> Result<HttpResponse>,
                            aj: string -> Decoded<AggregateResponse>, cj: string -> Decoded<CalculateResponse>,
                            req: Request, e: Error)
    requires NewHTTPClient(instance, parse).Ok?
    ensures var c := NewHTTPClient(instance, parse).value;
      var s := ClientSet(c, gate, roundTrip, aj, cj);
      gate(0) == Reject(e) && gate(1) == Admit && gate(2) == Admit ==>
        s.aggregateEndpoint(req) == Done(Reply(None, Some(e)), [])
        && s.calculateEndpoint(req) == Done(Reply(None, Some(e)), [])
    ensures var c := NewHTTPClient(instance, parse).value;
      var s := ClientSet(c, gate, roundTrip, aj, cj);
      gate(1) == Reject(e) && gate(0) == Admit && gate(2) == Admit ==>
        s.aggregateEndpoint(req) == Done(Reply(None, Some(e)), [])
        && s.calculateEndpoint(req)
           == ClientInner(c.calculate.url, roundTrip, (r: HttpResponse) => DecodeHTTPCalculateResponse(cj, r))(req)
  {
    var c := NewHTTPClient(instance, parse).value;
    var aInner := ClientInner(c.aggregate.url, roundTrip, (r: HttpResponse) => DecodeHTTPAggregateResponse(aj, r));
    var cInner := ClientInner(c.calculate.url, roundTrip, (r: HttpResponse) => DecodeHTTPCalculateResponse(cj, r));
    if gate(0) == Reject(e) && gate(1) == Admit && gate(2) == Admit {
      assert c.aggregate.layers == [] + [ClientLimiter] + [c.aggregate.layers[1]];
      BuildRejects([], ClientLimiter, [c.aggregate.layers[1]], gate, aInner, req);
      assert c.calculate.layers == [] + [ClientLimiter] + [c.calculate.layers[1]];
      BuildRejects([], ClientLimiter, [c.calculate.layers[1]], gate, cInner, req);
    }
    if gate(1) == Reject(e) && gate(0) == Admit && gate(2) == Admit {
      assert c.aggregate.layers == [ClientLimiter] + [c.aggregate.layers[1]] + [];
      BuildRejects([ClientLimiter], c.aggregate.layers[1], [], gate, aInner, req);
      var err := EndpointErr(cInner(req));
      var breaker := CircuitBreaker(2, "Concat", 10);
      assert c.calculate.layers == [ClientLimiter, breaker];
      assert [ClientLimiter, breaker][1..] == [breaker] && [breaker][1..] == [];
      assert Decorations([breaker], err) == [] + Decorations([], err);
      assert Decorations([ClientLimiter, breaker], err) == [] + Decorations([breaker], err);
      BuildPassesThrough(c.calculate.layers, gate, cInner, req);
      var built := Build(c.calculate.layers, gate, cInner)(req);
      assert built.Done? && built.value == cInner(req).value && built.effects == [];
    }
  }

  /** Used as a service, the client hands a limiter rejection to its
      caller: recording returns the limiter's error and an invoice request
      returns no invoice and that error, with no network call. */
  lemma ClientRejectionReachesCaller(instance: string, parse: string -> Result<URL>, gate: Gate,
                                     roundTrip: (URL, Request) -> Result<HttpResponse>,
                                     aj: string -> Decoded<AggregateResponse>, cj: string -> Decoded<CalculateResponse>,
                                     d: Distance, obuID: int, e: Error)
    requires NewHTTPClient(instance, parse).Ok?
    requires gate(0) == Reject(e) && gate(1) == Admit && gate(2) == Admit
    ensures var svc := AsService(ClientSet(NewHTTPClient(instance, parse).value, gate, roundTrip, aj, cj));
      && svc.aggregate(d) == Done(Some(e), [])
      && svc.calculate(obuID) == Done(InvoiceReply(None, Some(e)), [])
  {
    ClientSharesLimiter(instance, parse, gate, roundTrip, aj, cj, AggregateReq(ToRequest(d)), e);
    ClientSharesLimiter(instance, parse, gate, roundTrip, aj, cj, CalculateReq(CalculateRequest(obuID)), e);
  }

  // ---------------------------------------------------------------------
  // Server

  /** The response value handed to `encodeHTTPGenericResponse`, and, when
      its dynamic type implements `endpoint.Failer`, what `Failed()`
      returns. */
  datatype Encodable = Encodable(response: Response, failer: Option<Option<Error>>)

  /** The value the server encodes for an endpoint response: neither
      AggregateResponse nor CalculateResponse has a `Failed` method. */
  function AsEncodable(r: Response): Encodable {
    Encodable(r, None)
  }

  /** What the encoder leaves in the HTTP response: the Content-Type header
      if set, the JSON value if one was written, and the returned error. */
  datatype Encoded = Encoded(contentType: Option<string>, body: Option<Response>, err: Option<Error>)

  /** `encodeHTTPGenericResponse`: a response whose `Failed()` is non-nil
      goes to `errorEncoder`, which writes nothing, and nil is returned;
      anything else is written as JSON after the Content-Type header, the
      JSON encoder's error (`encodeErr`) being returned. */
  function EncodeHTTPGenericResponse(v: Encodable, encodeErr: Option<Error>): (r: Encoded)
    ensures v.failer.Some? && v.failer.value.Some? ==> r == Encoded(None, None, None)
    ensures !(v.failer.Some? && v.failer.value.Some?) ==>
      r == Encoded(Some("application/json; charset=utf-8"), Some(v.response), encodeErr)
  {
    if v.failer.Some? && v.failer.value.Some? then Encoded(None, None, None)
    else Encoded(Some("application/json; charset=utf-8"), Some(v.response), encodeErr)
  }

  /** Every response of this service, `err` field and all, is handed to the
      JSON encoder: the error-encoder branch never fires for them. What the
      encoder makes of a Go `error` value is not part of this model. */
  lemma ServiceResponsesAlwaysEncoded(r: Response, encodeErr: Option<Error>)
    ensures EncodeHTTPGenericResponse(AsEncodable(r), encodeErr).body == Some(r)
  {
  }

  /** The two operations the server exposes. */
  datatype Operation = AggregateOp | CalculateOp

  /** `NewHTTPHandler`'s mux: each route's exact path selects its operation;
      any other path has no handler. */
  function Route(path: string): (op: Option<Operation>)
    ensures op == Some(AggregateOp) <==> path == "/aggregate"
    ensures op == Some(CalculateOp) <==> path == "/invoice"
  {
    if path == "/aggregate" then Some(AggregateOp)
    else if path == "/invoice" then Some(CalculateOp)
    else None
  }

  /** The endpoint an operation's route serves. */
  function EndpointFor(s: Set, op: Operation): Endpoint {
    match op
    case AggregateOp => s.aggregateEndpoint
    case CalculateOp => s.calculateEndpoint
  }

  /** The client and the server agree on the routes: whatever instance the
      client is given, its aggregate endpoint's path reaches the server's
      aggregate endpoint and its calculate endpoint's path the server's
      calculate endpoint. */
  lemma ClientPathsRouteToServer(instance: string, parse: string -> Result<URL>, s: Set)
    requires NewHTTPClient(instance, parse).Ok?
    ensures var c := NewHTTPClient(instance, parse).value;
      && Route(c.aggregate.url.path) == Some(AggregateOp)
      && Route(c.calculate.url.path) == Some(CalculateOp)
      && EndpointFor(s, Route(c.aggregate.url.path).value) == s.aggregateEndpoint
      && EndpointFor(s, Route(c.calculate.url.path).value) == s.calculateEndpoint
  {
  }
}
