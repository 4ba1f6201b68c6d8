/** The plain aggregator's HTTP binding: the two handlers with their ordered
    request checks, the wrapper that turns an `APIError` into a JSON error
    envelope, and the request/error counters of `instrument`. The request
    body decoder, `strconv.Atoi` and `writeJSON`'s encoder are parameters. */
module BillingHttp {
  import opened Types
  import opened BillingService

  const StatusOK: int := 200
  const StatusBadRequest: int := 400
  const StatusInternalServerError: int := 500

  /** What the handlers read from an `*http.Request`: the method (`verb`),
      the parsed query string, and the raw body. */
  datatype Request = Request(verb: string, query: map<string, seq<string>>, body: string)

  /** `url.Values` as `URL.Query()` builds it: every key present has at
      least one value. */
  predicate WellFormedQuery(q: map<string, seq<string>>) {
    forall k :: k in q ==> |q[k]| > 0
  }

  /** The JSON values the handlers hand to `writeJSON`. */
  datatype Body =
    | InvoiceBody(invoice: Option<Invoice>)   // the invoice; `null` when nil
    | MessageBody(msg: string)                // {"msg": msg}
    | ErrorBody(error: string)                // {"error": error}

  /** One `writeJSON` call: a status code and a JSON body. */
  datatype Write = Write(code: int, body: Body)

  /** What one `HTTPFunc` call does: its returned error, what it wrote, and
      the service calls it made. */
  datatype Outcome = Outcome(err: Option<Error>, writes: seq<Write>, calls: seq<AggCall>)

  /** `writeJSON`: writes the code and body; its error is the encoder's,
      `encodeFailure` being the encoder's message when encoding fails. */
  function WriteJSON(code: int, body: Body, encodeFailure: Option<string>, calls: seq<AggCall>): (o: Outcome)
    ensures o.writes == [Write(code, body)] && o.calls == calls
    ensures o.err.Some? <==> encodeFailure.Some?
    ensures o.err.Some? ==> o.err.value.Failure?
  {
    Outcome(if encodeFailure.Some? then Some(Failure(encodeFailure.value)) else None, [Write(code, body)], calls)
  }

  /** An outcome that stops with an `APIError` before anything is written. */
  function Reject(code: int, e: Error, calls: seq<AggCall>): Outcome {
    Outcome(Some(ApiError(code, e)), [], calls)
  }

  /** `handleGetInvoice`: checks in order the method, the presence of `obu`,
      that its first value parses as an integer, and the service's answer. */
  function HandleGetInvoice(svc: Aggregator, atoi: string -> Option<int>, encodeFailure: Option<string>, r: Request): (o: Outcome)
    requires WellFormedQuery(r.query)
    ensures r.verb != "GET" ==> o == Reject(StatusBadRequest, Failure("invalid HTTP method " + r.verb), [])
    ensures r.verb == "GET" && "obu" !in r.query ==> o == Reject(StatusBadRequest, Failure("missing OBU id"), [])
    ensures r.verb == "GET" && "obu" in r.query && atoi(r.query["obu"][0]).None? ==>
      o == Reject(StatusBadRequest, Failure("invalid OBU id " + r.query["obu"][0]), [])
    ensures r.verb == "GET" && "obu" in r.query && atoi(r.query["obu"][0]).Some? ==>
      o.calls == [CalculateInvoiceCall(atoi(r.query["obu"][0]).value)]
  {
    if r.verb != "GET" then
      Reject(StatusBadRequest, Failure("invalid HTTP method " + r.verb), [])
    else if "obu" !in r.query then
      Reject(StatusBadRequest, Failure("missing OBU id"), [])
    else
      var values := r.query["obu"];
      var parsed := atoi(values[0]);
      if parsed.None? then
        Reject(StatusBadRequest, Failure("invalid OBU id " + values[0]), [])
      else
        var calls := [CalculateInvoiceCall(parsed.value)];
        var reply := svc.calculateInvoice(parsed.value);
        if reply.err.Some? then
          Reject(StatusInternalServerError, reply.err.value, calls)
        else
          WriteJSON(StatusOK, InvoiceBody(reply.invoice), encodeFailure, calls)
  }

  /** `handleAggregate`: checks the method, decodes the body as a Distance,
      and records it; success answers {"msg":"ok"}. */
  function HandleAggregate(svc: Aggregator, decode: string -> Decoded<Distance>, encodeFailure: Option<string>, r: Request): (o: Outcome)
    ensures r.verb != "POST" ==> o == Reject(StatusBadRequest, Failure("method not supported (" + r.verb + ")"), [])
    ensures r.verb == "POST" && decode(r.body).err.Some? ==>
      o == Reject(StatusBadRequest, Failure("failed to decode the response body: " + decode(r.body).err.value.Message()), [])
    ensures r.verb == "POST" && decode(r.body).err.None? ==> o.calls == [AggregateDistanceCall(decode(r.body).value)]
  {
    if r.verb != "POST" then
      Reject(StatusBadRequest, Failure("method not supported (" + r.verb + ")"), [])
    else
      var decoded := decode(r.body);
      if decoded.err.Some? then
        Reject(StatusBadRequest, Failure("failed to decode the response body: " + decoded.err.value.Message()), [])
      else
        var calls := [AggregateDistanceCall(decoded.value)];
        var err := svc.aggregateDistance(decoded.value);
        if err.Some? then
          Reject(StatusInternalServerError, err.value, calls)
        else
          WriteJSON(StatusOK, MessageBody("ok"), encodeFailure, calls)
  }

  /** `makeHTTPHandlerFunc`: what reaches the client. An `APIError` adds one
      {"error": message} write with its code; a nil error or any other error
      adds nothing. */
  function MakeHTTPHandlerFunc(o: Outcome): (writes: seq<Write>)
    ensures o.err.Some? && o.err.value.ApiError? ==>
      writes == o.writes + [Write(o.err.value.code, ErrorBody(o.err.value.err.Message()))]
    ensures !(o.err.Some? && o.err.value.ApiError?) ==> writes == o.writes
  {
    match o.err
    case Some(ApiError(code, e)) => o.writes + [Write(code, ErrorBody(ApiError(code, e).Message()))]
    case _ => o.writes
  }

  /** The request checks of `handleGetInvoice` all pass. */
  predicate ValidInvoiceQuery(r: Request, atoi: string -> Option<int>) {
    && r.verb == "GET"
    && "obu" in r.query
    && |r.query["obu"]| > 0
    && atoi(r.query["obu"][0]).Some?
  }

  /** The invoice route answers every request with exactly one write whose
      code is 400 exactly when a request check fails, 500 exactly when the
      checks pass and the service fails, and 200 with the service's invoice
      otherwise; the service is called, once and with the first `obu` value,
      exactly when the checks pass. */
  lemma GetInvoiceStatus(svc: Aggregator, atoi: string -> Option<int>, encodeFailure: Option<string>, r: Request)
    requires WellFormedQuery(r.query)
    ensures var o := HandleGetInvoice(svc, atoi, encodeFailure, r);
      var w := MakeHTTPHandlerFunc(o);
      && |w| == 1
      && (w[0].code == 400 <==> !ValidInvoiceQuery(r, atoi))
      && (w[0].code == 500 <==> ValidInvoiceQuery(r, atoi) && svc.calculateInvoice(atoi(r.query["obu"][0]).value).err.Some?)
      && (w[0].code == 200 <==> ValidInvoiceQuery(r, atoi) && svc.calculateInvoice(atoi(r.query["obu"][0]).value).err.None?)
      && (w[0].code == 200 ==> w[0].body == InvoiceBody(svc.calculateInvoice(atoi(r.query["obu"][0]).value).invoice))
      && (o.calls != [] <==> ValidInvoiceQuery(r, atoi))
  {
  }

  /** The aggregate route answers every request with exactly one write: 400
      for a wrong method or an undecodable body, 500 when the service fails,
      otherwise 200 {"msg":"ok"}; the service sees the decoded Distance,
      once, exactly when the method and the body are good. */
  lemma AggregateStatus(svc: Aggregator, decode: string -> Decoded<Distance>, encodeFailure: Option<string>, r: Request)
    ensures var o := HandleAggregate(svc, decode, encodeFailure, r);
      var w := MakeHTTPHandlerFunc(o);
      var accepted := r.verb == "POST" && decode(r.body).err.None?;
      && |w| == 1
      && (w[0].code == 400 <==> !accepted)
      && (w[0].code == 500 <==> accepted && svc.aggregateDistance(decode(r.body).value).Some?)
      && (w[0].code == 200 <==> accepted && svc.aggregateDistance(decode(r.body).value).None?)
      && (w[0].code == 200 ==> w[0].body == MessageBody("ok"))
      && (o.calls != [] <==> accepted)
  {
  }

  /** End to end over a store: a valid invoice request for unit `k` writes
      200 with the priced invoice when `Get(k)` succeeds and 500 with the
      store's message when it fails. */
  lemma GetInvoiceOverStore(store: Storer, atoi: string -> Option<int>, encodeFailure: Option<string>, r: Request)
    requires WellFormedQuery(r.query)
    requires ValidInvoiceQuery(r, atoi)
    ensures var k := atoi(r.query["obu"][0]).value;
      var w := MakeHTTPHandlerFunc(HandleGetInvoice(NewInvoiceAggregator(store), atoi, encodeFailure, r));
      && (store.get(k).err.None? ==>
            w == [Write(200, InvoiceBody(Some(Invoice(k, store.get(k).dist, BasePrice * store.get(k).dist))))])
      && (store.get(k).err.Some? ==> w == [Write(500, ErrorBody(store.get(k).err.value.Message()))])
  {
  }

  /** The request and error counters of an `HTTPMetricHandler`. */
  datatype Counters = Counters(requests: nat, errors: nat)

  /** The counters never count more errors than requests. */
  predicate CountersValid(c: Counters) {
    c.errors <= c.requests
  }

  /** `instrument`: the wrapped handler's outcome is returned unchanged, the
      request counter rises by one and the error counter by one exactly when
      the outcome carries an error. */
  function Instrument(c: Counters, next: Outcome): (r: (Counters, Outcome))
    ensures r.1 == next
    ensures r.0.requests == c.requests + 1
    ensures r.0.errors == if next.err.Some? then c.errors + 1 else c.errors
    ensures CountersValid(c) ==> CountersValid(r.0)
  {
    (Counters(c.requests + 1, if next.err.Some? then c.errors + 1 else c.errors), next)
  }

  /** The counters after a sequence of instrumented calls with the given
      outcomes, starting from `c`. */
  function Replay(c: Counters, outcomes: seq<Outcome>): Counters
    decreases |outcomes|
  {
    if outcomes == [] then c else Replay(Instrument(c, outcomes[0]).0, outcomes[1..])
  }

  /** How many of the outcomes carry an error. */
  function Failures(outcomes: seq<Outcome>): nat
    decreases |outcomes|
  {
    if outcomes == [] then 0 else (if outcomes[0].err.Some? then 1 else 0) + Failures(outcomes[1..])
  }

  lemma {:induction false} FailuresBounded(outcomes: seq<Outcome>)
    ensures Failures(outcomes) <= |outcomes|
    decreases |outcomes|
  {
    if outcomes != [] {
      FailuresBounded(outcomes[1..]);
    }
  }

  /** After any sequence of calls the request counter has grown by the
      number of calls and the error counter by the number of failed ones;
      from fresh counters, errors never exceed requests. */
  lemma {:induction false} ReplayCounts(c: Counters, outcomes: seq<Outcome>)
    ensures Replay(c, outcomes).requests == c.requests + |outcomes|
    ensures Replay(c, outcomes).errors == c.errors + Failures(outcomes)
    ensures CountersValid(c) ==> CountersValid(Replay(c, outcomes))
    decreases |outcomes|
  {
    if outcomes != [] {
      ReplayCounts(Instrument(c, outcomes[0]).0, outcomes[1..]);
      FailuresBounded(outcomes);
    }
  }
}
