/** The go-kit endpoint layer: the adapters that wrap the service into
    `(request) -> (response, error)` endpoints, the `Set` methods that turn
    a pair of endpoints back into a service, the endpoint middlewares, and
    the decorator order `New` wires. Service errors travel inside the
    response; decorator errors are the endpoint's own error.

    The rate limiter and the circuit breaker are library code not part of
    this model: each is a guard that, on a call, either admits it (the inner
    endpoint runs and its answer is returned unchanged) or rejects it with
    an error without running the inner endpoint. Which guard instance does
    what on a call is the parameter `gate`, indexed by instance number. */
module KitEndpoint {
  import opened Types
  import opened KitService

  datatype AggregateRequest = AggregateRequest(value: real, obuID: int, unix: int)
  datatype CalculateRequest = CalculateRequest(obuID: int)

  /** The dynamic value inside an endpoint's `interface{}` request. */
  datatype Request = AggregateReq(aggregate: AggregateRequest) | CalculateReq(calculate: CalculateRequest)

  datatype AggregateResponse = AggregateResponse(err: Option<Error>)
  datatype CalculateResponse = CalculateResponse(obuID: int, totalDistance: real, totalAmount: real, err: Option<Error>)

  /** The dynamic value inside an endpoint's `interface{}` response. */
  datatype Response = AggregateResp(aggregate: AggregateResponse) | CalculateResp(calculate: CalculateResponse)

  /** An endpoint's `(response, err)` pair; the response may be nil. */
  datatype Reply = Reply(response: Option<Response>, err: Option<Error>)

  type Endpoint = Request -> Call<Reply>

  /** The request `Set.Aggregate` builds from a Distance. */
  function ToRequest(d: Distance): AggregateRequest {
    AggregateRequest(d.value, d.obuID, d.unix)
  }

  /** The Distance the aggregate adapter builds from a request. */
  function ToDistance(r: AggregateRequest): Distance {
    Distance(r.obuID, r.value, r.unix)
  }

  /** The two conversions are inverse: no field is lost or swapped on the
      way from the client API to the service and back. */
  lemma RequestRoundTrip(d: Distance, r: AggregateRequest)
    ensures ToDistance(ToRequest(d)) == d
    ensures ToRequest(ToDistance(r)) == r
  {
  }

  /** `MakeAggregateEndpoint`: the service error goes into the response and
      the endpoint's own error is always nil; a request of the wrong type
      fails the type assertion before the service is called. */
  function MakeAggregateEndpoint(svc: Service): Endpoint {
    (req: Request) =>
      match req
      case AggregateReq(r) =>
        (match svc.aggregate(ToDistance(r))
         case Done(err, eff) => Done(Reply(Some(AggregateResp(AggregateResponse(err))), None), eff)
         case Panicked(p, eff) => Panicked(p, eff))
      case CalculateReq(_) => Panicked(FailedTypeAssertion, [])
  }

  /** `MakeConcatEndpoint`, as written: the invoice's fields are read even
      when the service returned a nil invoice, which panics. */
  function MakeConcatEndpoint(svc: Service): Endpoint {
    (req: Request) =>
      match req
      case CalculateReq(r) =>
        (match svc.calculate(r.obuID)
         case Done(reply, eff) =>
           if reply.invoice.None? then Panicked(NilDereference, eff)
           else
             var inv := reply.invoice.value;
             Done(Reply(Some(CalculateResp(CalculateResponse(inv.obuID, inv.totalDistance, inv.totalAmount, reply.err))), None), eff)
         case Panicked(p, eff) => Panicked(p, eff))
      case AggregateReq(_) => Panicked(FailedTypeAssertion, [])
  }

  /** The calculate adapter as evidently intended: a nil invoice leaves the
      response's fields at their zero values and the service error is
      carried in `Err`, as the aggregate adapter does. */
  function MakeConcatEndpointChecked(svc: Service): Endpoint {
    (req: Request) =>
      match req
      case CalculateReq(r) =>
        (match svc.calculate(r.obuID)
         case Done(reply, eff) =>
           var inv := if reply.invoice.Some? then reply.invoice.value else Invoice(0, 0.0, 0.0);
           Done(Reply(Some(CalculateResp(CalculateResponse(inv.obuID, inv.totalDistance, inv.totalAmount, reply.err))), None), eff)
         case Panicked(p, eff) => Panicked(p, eff))
      case AggregateReq(_) => Panicked(FailedTypeAssertion, [])
  }

  /** The aggregate adapter hands the service exactly the request's
      Distance, never errs itself, and carries the service's error in the
      response; the wrong request type panics with no service call. */
  lemma AggregateEndpointCarriesError(svc: Service, r: AggregateRequest, other: CalculateRequest)
    ensures svc.aggregate(ToDistance(r)).Done? ==>
      MakeAggregateEndpoint(svc)(AggregateReq(r))
        == Done(Reply(Some(AggregateResp(AggregateResponse(svc.aggregate(ToDistance(r)).value))), None),
                svc.aggregate(ToDistance(r)).effects)
    ensures MakeAggregateEndpoint(svc)(AggregateReq(r)).Done? ==> MakeAggregateEndpoint(svc)(AggregateReq(r)).value.err.None?
    ensures MakeAggregateEndpoint(svc)(CalculateReq(other)) == Panicked(FailedTypeAssertion, [])
  {
  }

  /** On a service success the calculate adapter copies the invoice into
      the response with a nil error; the wrong request type panics with no
      service call. */
  lemma ConcatEndpointCopiesInvoice(svc: Service, r: CalculateRequest, other: AggregateRequest)
    ensures svc.calculate(r.obuID).Done? && svc.calculate(r.obuID).value.invoice.Some? ==>
      var inv := svc.calculate(r.obuID).value.invoice.value;
      MakeConcatEndpoint(svc)(CalculateReq(r))
        == Done(Reply(Some(CalculateResp(CalculateResponse(inv.obuID, inv.totalDistance, inv.totalAmount, svc.calculate(r.obuID).value.err))), None),
                svc.calculate(r.obuID).effects)
    ensures MakeConcatEndpoint(svc)(AggregateReq(other)) == Panicked(FailedTypeAssertion, [])
  {
  }

  /** The as-written calculate adapter panics whenever the service reports
      a store error: an invoice request for a unit the store has no entry
      for brings the endpoint down instead of answering with the error. */
  lemma ConcatEndpointPanicsOnServiceError(store: Storer, obuID: int)
    requires store.get(obuID).err.Some?
    ensures MakeConcatEndpoint(BasicService(store))(CalculateReq(CalculateRequest(obuID)))
         == Panicked(NilDereference, [StoreUsed(GetCall(obuID))])
  {
  }

  /** The corrected calculate adapter never panics on a service answer: the
      service's error is carried in the response's `Err`, the invoice
      fields are copied when present and zero otherwise. */
  lemma ConcatEndpointCheckedCarriesError(svc: Service, r: CalculateRequest)
    requires svc.calculate(r.obuID).Done?
    ensures var reply := svc.calculate(r.obuID).value;
      var c := MakeConcatEndpointChecked(svc)(CalculateReq(r));
      && c.Done?
      && c.value.err.None?
      && c.value.response.Some? && c.value.response.value.CalculateResp?
      && c.value.response.value.calculate.err == reply.err
      && (reply.invoice.Some? ==>
            && c.value.response.value.calculate.obuID == reply.invoice.value.obuID
            && c.value.response.value.calculate.totalDistance == reply.invoice.value.totalDistance
            && c.value.response.value.calculate.totalAmount == reply.invoice.value.totalAmount)
  {
  }

  // ---------------------------------------------------------------------
  // Endpoint middlewares

  /** The `err` a deferred endpoint log line sees (nil while panicking). */
  function EndpointErr(c: Call<Reply>): Option<Error> {
    if c.Done? then c.value.err else None
  }

  /** `InstrumentingMiddleware`: one observation per call, labelled with the
      constant "success" whatever the outcome, after `next` has run. */
  function InstrumentingMiddleware(operation: string, next: Endpoint): Endpoint {
    req => Append(next(req), Observed(operation, "success"))
  }

  /** `LoggingMiddleware`: one log line per call, with the final `err`,
      after `next` has run. */
  function LoggingMiddleware(next: Endpoint): Endpoint {
    req => var c := next(req); Append(c, Logged(EndpointErr(c)))
  }

  /** Both endpoint middlewares return `next`'s outcome unchanged and add
      exactly one effect: an observation tagged "success" even when `next`
      failed, and a log line carrying `next`'s final error. */
  lemma EndpointMiddlewaresPassThrough(operation: string, next: Endpoint, req: Request)
    ensures InstrumentingMiddleware(operation, next)(req).Outcome() == next(req).Outcome()
    ensures InstrumentingMiddleware(operation, next)(req).effects == next(req).effects + [Observed(operation, "success")]
    ensures LoggingMiddleware(next)(req).Outcome() == next(req).Outcome()
    ensures LoggingMiddleware(next)(req).effects == next(req).effects + [Logged(EndpointErr(next(req)))]
  {
  }

  // ---------------------------------------------------------------------
  // Decorator stacks

  /** What a guard does on this call. */
  datatype Admission = Admit | Reject(err: Error)

  /** The decision of every guard instance on this call. */
  type Gate = nat -> Admission

  /** One decorator of an endpoint stack. Guards carry their instance number
      and the configuration the source gives them (a breaker timeout of 0
      is the library default). */
  datatype Layer =
    | RateLimiter(guard: nat, eventsPerSecond: real, burst: nat)
    | CircuitBreaker(guard: nat, name: string, timeoutSeconds: nat)
    | Logging
    | Instrumenting(operation: string)
  {
    predicate IsGuard() {
      RateLimiter? || CircuitBreaker?
    }
  }

  /** A guard around an endpoint: a rejection answers `(nil, err)` and runs
      nothing; an admission runs `next` and returns its answer unchanged. */
  function Guarded(a: Admission, next: Endpoint): Endpoint {
    req =>
      match a
      case Reject(e) => Done(Reply(None, Some(e)), [])
      case Admit => next(req)
  }

  /** One layer around an endpoint. */
  function Wrap(layer: Layer, gate: Gate, next: Endpoint): Endpoint {
    match layer
    case RateLimiter(g, _, _) => Guarded(gate(g), next)
    case CircuitBreaker(g, _, _) => Guarded(gate(g), next)
    case Logging => LoggingMiddleware(next)
    case Instrumenting(op) => InstrumentingMiddleware(op, next)
  }

  /** The endpoint with the layers applied in order, the first innermost. */
  function Build(layers: seq<Layer>, gate: Gate, inner: Endpoint): Endpoint
    decreases |layers|
  {
    if layers == [] then inner else Build(layers[1..], gate, Wrap(layers[0], gate, inner))
  }

  /** Every guard among the layers admits this call. */
  ghost predicate Admits(layers: seq<Layer>, gate: Gate) {
    forall i | 0 <= i < |layers| && layers[i].IsGuard() :: gate(layers[i].guard) == Admit
  }

  /** The effects the layers add around an admitted call whose final error
      is `err`, innermost first. */
  function Decorations(layers: seq<Layer>, err: Option<Error>): seq<Effect>
    decreases |layers|
  {
    if layers == [] then []
    else
      var mark := match layers[0]
        case Logging => [Logged(err)]
        case Instrumenting(op) => [Observed(op, "success")]
        case _ => [];
      mark + Decorations(layers[1..], err)
  }

  /** Building in two steps is building once. */
  lemma {:induction false} BuildSplit(a: seq<Layer>, b: seq<Layer>, gate: Gate, inner: Endpoint)
    ensures Build(a + b, gate, inner) == Build(b, gate, Build(a, gate, inner))
    decreases |a|
  {
    if a != [] {
      var next := Wrap(a[0], gate, inner);
      assert (a + b)[0] == a[0] && (a + b)[1..] == a[1..] + b;
      assert Build(a + b, gate, inner) == Build(a[1..] + b, gate, next);
      assert Build(a, gate, inner) == Build(a[1..], gate, next);
      BuildSplit(a[1..], b, gate, next);
    } else {
      assert a + b == b;
    }
  }

  /** One admitted layer answers as the endpoint inside it and adds its
      decoration after the inner effects. */
  lemma WrapPassesThrough(layer: Layer, gate: Gate, next: Endpoint, req: Request)
    requires layer.IsGuard() ==> gate(layer.guard) == Admit
    ensures Wrap(layer, gate, next)(req).Outcome() == next(req).Outcome()
    ensures Wrap(layer, gate, next)(req).effects == next(req).effects + Decorations([layer], EndpointErr(next(req)))
  {
  }

  /** When every guard admits, a stack answers exactly as the inner
      endpoint, and adds its log lines and observations after the inner
      effects, each carrying the inner final error. */
  lemma {:induction false} BuildPassesThrough(layers: seq<Layer>, gate: Gate, inner: Endpoint, req: Request)
    requires Admits(layers, gate)
    ensures Build(layers, gate, inner)(req).Outcome() == inner(req).Outcome()
    ensures Build(layers, gate, inner)(req).effects == inner(req).effects + Decorations(layers, EndpointErr(inner(req)))
    decreases |layers|
  {
    if layers != [] {
      var next := Wrap(layers[0], gate, inner);
      assert layers[0].IsGuard() ==> gate(layers[0].guard) == Admit;
      WrapPassesThrough(layers[0], gate, inner, req);
      assert Decorations(layers, EndpointErr(inner(req)))
          == Decorations([layers[0]], EndpointErr(inner(req))) + Decorations(layers[1..], EndpointErr(inner(req)));
      assert Admits(layers[1..], gate) by {
        forall i | 0 <= i < |layers[1..]| && layers[1..][i].IsGuard()
          ensures gate(layers[1..][i].guard) == Admit
        {
          assert layers[1..][i] == layers[i + 1];
        }
      }
      BuildPassesThrough(layers[1..], gate, next, req);
    }
  }

  /** When a guard rejects and every guard outside it admits, the stack
      answers `(nil, err)` with that guard's error: neither the inner
      endpoint nor any layer inside the guard runs, and only the layers
      outside it log and observe, seeing that error. */
  lemma BuildRejects(inside: seq<Layer>, guard: Layer, outside: seq<Layer>, gate: Gate, inner: Endpoint, req: Request)
    requires guard.IsGuard() && gate(guard.guard).Reject?
    requires Admits(outside, gate)
    ensures Build(inside + [guard] + outside, gate, inner)(req)
         == Done(Reply(None, Some(gate(guard.guard).err)), Decorations(outside, Some(gate(guard.guard).err)))
  {
    BuildSplit(inside + [guard], outside, gate, inner);
    BuildSplit(inside, [guard], gate, inner);
    var rejecting := Build([guard], gate, Build(inside, gate, inner));
    assert rejecting == Wrap(guard, gate, Build(inside, gate, inner));
    assert rejecting(req) == Done(Reply(None, Some(gate(guard.guard).err)), []);
    BuildPassesThrough(outside, gate, rejecting, req);
  }

  // ---------------------------------------------------------------------
  // The endpoint set

  /** `Set`: one endpoint per service operation. */
  datatype Set = Set(aggregateEndpoint: Endpoint, calculateEndpoint: Endpoint)

  /** The aggregate endpoint's stack in `New`: its own limiter (one event
      per second, burst 1), its own breaker, logging, instrumentation. */
  const AggregateLayers: seq<Layer> :=
    [RateLimiter(0, 1.0, 1), CircuitBreaker(1, "", 0), Logging, Instrumenting("Aggregate")]

  /** The calculate endpoint's stack in `New`: its own limiter (one event
      per second, burst 100), its own breaker, logging, instrumentation. */
  const CalculateLayers: seq<Layer> :=
    [RateLimiter(2, 1.0, 100), CircuitBreaker(3, "", 0), Logging, Instrumenting("Invoice")]

  /** The guard instances of a stack. */
  function Guards(layers: seq<Layer>): set<nat> {
    set i | 0 <= i < |layers| && layers[i].IsGuard() :: layers[i].guard
  }

  /** Each endpoint of `New` has its own limiter and breaker: no guard
      instance is shared between the two stacks, and in each the limiter is
      innermost, then the breaker, then logging, then instrumentation. */
  lemma ServerGuardsIndependent()
    ensures Guards(AggregateLayers) == {0, 1} && Guards(CalculateLayers) == {2, 3}
    ensures Guards(AggregateLayers) !! Guards(CalculateLayers)
    ensures AggregateLayers[0].RateLimiter? && AggregateLayers[1].CircuitBreaker?
         && AggregateLayers[2].Logging? && AggregateLayers[3].Instrumenting?
    ensures CalculateLayers[0].RateLimiter? && CalculateLayers[1].CircuitBreaker?
         && CalculateLayers[2].Logging? && CalculateLayers[3].Instrumenting?
  {
    assert AggregateLayers[0].guard in Guards(AggregateLayers);
    assert AggregateLayers[1].guard in Guards(AggregateLayers);
    assert CalculateLayers[0].guard in Guards(CalculateLayers);
    assert CalculateLayers[1].guard in Guards(CalculateLayers);
  }

  /** The two stacks around two adapters. */
  function Wire(aggregateInner: Endpoint, calculateInner: Endpoint, gate: Gate): Set {
    Set(Build(AggregateLayers, gate, aggregateInner), Build(CalculateLayers, gate, calculateInner))
  }

  /** `New`: the endpoint set over a service, as written. */
  function New(svc: Service, gate: Gate): Set {
    Wire(MakeAggregateEndpoint(svc), MakeConcatEndpoint(svc), gate)
  }

  /** The endpoint set over the corrected calculate adapter. */
  function NewChecked(svc: Service, gate: Gate): Set {
    Wire(MakeAggregateEndpoint(svc), MakeConcatEndpointChecked(svc), gate)
  }

  /** With both its guards admitting, an endpoint of `New` answers as its
      adapter, then logs once and observes once with the label "success". */
  lemma NewAdmitted(svc: Service, gate: Gate, req: Request)
    ensures gate(0) == Admit && gate(1) == Admit ==>
      && New(svc, gate).aggregateEndpoint(req).Outcome() == MakeAggregateEndpoint(svc)(req).Outcome()
      && New(svc, gate).aggregateEndpoint(req).effects
         == MakeAggregateEndpoint(svc)(req).effects
            + [Logged(EndpointErr(MakeAggregateEndpoint(svc)(req))), Observed("Aggregate", "success")]
    ensures gate(2) == Admit && gate(3) == Admit ==>
      && New(svc, gate).calculateEndpoint(req).Outcome() == MakeConcatEndpoint(svc)(req).Outcome()
      && New(svc, gate).calculateEndpoint(req).effects
         == MakeConcatEndpoint(svc)(req).effects
            + [Logged(EndpointErr(MakeConcatEndpoint(svc)(req))), Observed("Invoice", "success")]
  {
    if gate(0) == Admit && gate(1) == Admit {
      BuildPassesThrough(AggregateLayers, gate, MakeAggregateEndpoint(svc), req);
    }
    if gate(2) == Admit && gate(3) == Admit {
      BuildPassesThrough(CalculateLayers, gate, MakeConcatEndpoint(svc), req);
    }
  }

  /** An open breaker answers with its error without consulting the limiter
      or the service; with the breaker admitting, a limiter rejection does
      the same. Either way the call is still logged and observed. */
  lemma NewRejected(svc: Service, gate: Gate, req: Request, e: Error)
    ensures gate(1) == Reject(e) || (gate(1) == Admit && gate(0) == Reject(e)) ==>
      New(svc, gate).aggregateEndpoint(req) == Done(Reply(None, Some(e)), [Logged(Some(e)), Observed("Aggregate", "success")])
    ensures gate(3) == Reject(e) || (gate(3) == Admit && gate(2) == Reject(e)) ==>
      New(svc, gate).calculateEndpoint(req) == Done(Reply(None, Some(e)), [Logged(Some(e)), Observed("Invoice", "success")])
  {
    var outside := [Logging, Instrumenting("Aggregate")];
    assert Decorations(outside, Some(e)) == [Logged(Some(e)), Observed("Aggregate", "success")];
    if gate(1) == Reject(e) {
      assert AggregateLayers == [RateLimiter(0, 1.0, 1)] + [CircuitBreaker(1, "", 0)] + outside;
      BuildRejects([RateLimiter(0, 1.0, 1)], CircuitBreaker(1, "", 0), outside, gate, MakeAggregateEndpoint(svc), req);
    } else if gate(1) == Admit && gate(0) == Reject(e) {
      assert AggregateLayers == [] + [RateLimiter(0, 1.0, 1)] + ([CircuitBreaker(1, "", 0)] + outside);
      BuildRejects([], RateLimiter(0, 1.0, 1), [CircuitBreaker(1, "", 0)] + outside, gate, MakeAggregateEndpoint(svc), req);
    }
    var outsideC := [Logging, Instrumenting("Invoice")];
    assert Decorations(outsideC, Some(e)) == [Logged(Some(e)), Observed("Invoice", "success")];
    if gate(3) == Reject(e) {
      assert CalculateLayers == [RateLimiter(2, 1.0, 100)] + [CircuitBreaker(3, "", 0)] + outsideC;
      BuildRejects([RateLimiter(2, 1.0, 100)], CircuitBreaker(3, "", 0), outsideC, gate, MakeConcatEndpoint(svc), req);
    } else if gate(3) == Admit && gate(2) == Reject(e) {
      assert CalculateLayers == [] + [RateLimiter(2, 1.0, 100)] + ([CircuitBreaker(3, "", 0)] + outsideC);
      BuildRejects([], RateLimiter(2, 1.0, 100), [CircuitBreaker(3, "", 0)] + outsideC, gate, MakeConcatEndpoint(svc), req);
    }
  }

  // ---------------------------------------------------------------------
  // Set as a Service (the client side of the endpoint layer)

  /** `Set.Aggregate`, as written: only the endpoint's own error is
      returned; the response, and the service error inside it, is dropped. */
  function SetAggregate(s: Set, d: Distance): Call<Option<Error>> {
    match s.aggregateEndpoint(AggregateReq(ToRequest(d)))
    case Done(reply, eff) => Done(reply.err, eff)
    case Panicked(p, eff) => Panicked(p, eff)
  }

  /** `Set.Calculate`, as written: an endpoint error gives a nil invoice and
      that error; otherwise the response must be a CalculateResponse and
      the invoice is built from it, its `Err` ignored. */
  function SetCalculate(s: Set, obuID: int): Call<InvoiceReply> {
    match s.calculateEndpoint(CalculateReq(CalculateRequest(obuID)))
    case Done(reply, eff) =>
      if reply.err.Some? then Done(InvoiceReply(None, reply.err), eff)
      else if reply.response.Some? && reply.response.value.CalculateResp? then
        var r := reply.response.value.calculate;
        Done(InvoiceReply(Some(Invoice(r.obuID, r.totalDistance, r.totalAmount)), None), eff)
      else Panicked(FailedTypeAssertion, eff)
    case Panicked(p, eff) => Panicked(p, eff)
  }

  /** `Set.Aggregate` as evidently intended: the endpoint error first, then
      the service error carried in the AggregateResponse. */
  function SetAggregateChecked(s: Set, d: Distance): Call<Option<Error>> {
    match s.aggregateEndpoint(AggregateReq(ToRequest(d)))
    case Done(reply, eff) =>
      if reply.err.Some? then Done(reply.err, eff)
      else if reply.response.Some? && reply.response.value.AggregateResp? then
        Done(reply.response.value.aggregate.err, eff)
      else Panicked(FailedTypeAssertion, eff)
    case Panicked(p, eff) => Panicked(p, eff)
  }

  /** `Set.Calculate` as evidently intended: a service error carried in the
      CalculateResponse gives a nil invoice and that error. */
  function SetCalculateChecked(s: Set, obuID: int): Call<InvoiceReply> {
    match s.calculateEndpoint(CalculateReq(CalculateRequest(obuID)))
    case Done(reply, eff) =>
      if reply.err.Some? then Done(InvoiceReply(None, reply.err), eff)
      else if reply.response.Some? && reply.response.value.CalculateResp? then
        var r := reply.response.value.calculate;
        if r.err.Some? then Done(InvoiceReply(None, r.err), eff)
        else Done(InvoiceReply(Some(Invoice(r.obuID, r.totalDistance, r.totalAmount)), None), eff)
      else Panicked(FailedTypeAssertion, eff)
    case Panicked(p, eff) => Panicked(p, eff)
  }

  /** A `Set` used as a `Service`, as written. */
  function AsService(s: Set): Service {
    Service(d => SetAggregate(s, d), obuID => SetCalculate(s, obuID))
  }

  /** A `Set` used as a `Service`, with the corrected methods. */
  function AsServiceChecked(s: Set): Service {
    Service(d => SetAggregateChecked(s, d), obuID => SetCalculateChecked(s, obuID))
  }

  /** `Set.Aggregate` over any endpoint returns that endpoint's own error
      and nothing else of its answer: the effects and a panic pass through
      unchanged, and the response, whatever it holds, is not looked at. */
  lemma SetAggregateReturnsEndpointError(s: Set, d: Distance)
    ensures var c := s.aggregateEndpoint(AggregateReq(ToRequest(d)));
      && (c.Done? ==> SetAggregate(s, d) == Done(c.value.err, c.effects))
      && (c.Panicked? ==> SetAggregate(s, d) == Panicked(c.panic, c.effects))
  {
  }

  /** `Set.Calculate` over any endpoint: an endpoint error gives a nil
      invoice and that error; otherwise a CalculateResponse gives the
      invoice built from its fields with a nil error, whatever its `Err`
      holds; any other response fails the type assertion. Effects and a
      panic pass through unchanged. */
  lemma SetCalculateCases(s: Set, obuID: int)
    ensures var c := s.calculateEndpoint(CalculateReq(CalculateRequest(obuID)));
      && (c.Done? && c.value.err.Some? ==> SetCalculate(s, obuID) == Done(InvoiceReply(None, c.value.err), c.effects))
      && (c.Done? && c.value.err.None? && c.value.response.Some? && c.value.response.value.CalculateResp? ==>
            var r := c.value.response.value.calculate;
            SetCalculate(s, obuID) == Done(InvoiceReply(Some(Invoice(r.obuID, r.totalDistance, r.totalAmount)), None), c.effects))
      && (c.Done? && c.value.err.None? && !(c.value.response.Some? && c.value.response.value.CalculateResp?) ==>
            SetCalculate(s, obuID) == Panicked(FailedTypeAssertion, c.effects))
      && (c.Panicked? ==> SetCalculate(s, obuID) == Panicked(c.panic, c.effects))
  {
  }

  /** `Set.Calculate` never reads a CalculateResponse's `Err`: two
      endpoints that answer with the same fields and different `Err` give
      the caller the same invoice and a nil error. */
  lemma SetCalculateIgnoresErrField(s1: Set, s2: Set, obuID: int, r: CalculateResponse, e1: Option<Error>, e2: Option<Error>, eff: seq<Effect>)
    requires s1.calculateEndpoint(CalculateReq(CalculateRequest(obuID))) == Done(Reply(Some(CalculateResp(r.(err := e1))), None), eff)
    requires s2.calculateEndpoint(CalculateReq(CalculateRequest(obuID))) == Done(Reply(Some(CalculateResp(r.(err := e2))), None), eff)
    ensures SetCalculate(s1, obuID) == SetCalculate(s2, obuID)
    ensures SetCalculate(s1, obuID) == Done(InvoiceReply(Some(Invoice(r.obuID, r.totalDistance, r.totalAmount)), None), eff)
  {
  }

  /** A decorator's rejection reaches a caller of the `Set`: when both
      breakers of `New` reject with `e`, recording returns `e` and an
      invoice request returns no invoice and `e`, the store untouched. */
  lemma RejectionReachesSetCaller(store: Storer, gate: Gate, d: Distance, obuID: int, e: Error)
    requires gate(1) == Reject(e) && gate(3) == Reject(e)
    ensures AsService(New(KitService.New(store), gate)).aggregate(d).Outcome() == Done(Some(e), [])
    ensures AsService(New(KitService.New(store), gate)).calculate(obuID).Outcome() == Done(InvoiceReply(None, Some(e)), [])
    ensures forall i | 0 <= i < |AsService(New(KitService.New(store), gate)).calculate(obuID).effects| ::
      !AsService(New(KitService.New(store), gate)).calculate(obuID).effects[i].StoreUsed?
  {
    var svc := KitService.New(store);
    NewRejected(svc, gate, AggregateReq(ToRequest(d)), e);
    NewRejected(svc, gate, CalculateReq(CalculateRequest(obuID)), e);
  }

  /** `Set.Aggregate` over the aggregate adapter delivers the caller's very
      Distance to the service, and an endpoint error comes back unchanged. */
  lemma SetAggregateDelivers(svc: Service, other: Endpoint, d: Distance)
    ensures SetAggregate(Set(MakeAggregateEndpoint(svc), other), d).effects == svc.aggregate(d).effects
    ensures svc.aggregate(d).Panicked? ==> SetAggregate(Set(MakeAggregateEndpoint(svc), other), d) == svc.aggregate(d)
  {
    RequestRoundTrip(d, ToRequest(d));
  }

  /** As written, `Set.Aggregate` loses the service error: a failing insert
      reaches the caller as nil. */
  lemma SetAggregateDropsServiceError(svc: Service, other: Endpoint, d: Distance)
    requires svc.aggregate(d).Done? && svc.aggregate(d).value.Some?
    ensures SetAggregate(Set(MakeAggregateEndpoint(svc), other), d) == Done(None, svc.aggregate(d).effects)
  {
    RequestRoundTrip(d, ToRequest(d));
  }

  /** The corrected `Set.Aggregate` over the aggregate adapter is the
      service itself: same error, same panic, same effects. */
  lemma SetAggregateCheckedRoundTrip(svc: Service, other: Endpoint, d: Distance)
    ensures SetAggregateChecked(Set(MakeAggregateEndpoint(svc), other), d) == svc.aggregate(d)
  {
    RequestRoundTrip(d, ToRequest(d));
  }

  /** As written, `Set.Calculate` over the corrected adapter turns a store
      error into a zero invoice with a nil error. */
  lemma SetCalculateIgnoresResponseErr(store: Storer, other: Endpoint, obuID: int)
    requires store.get(obuID).err.Some?
    ensures SetCalculate(Set(other, MakeConcatEndpointChecked(BasicService(store))), obuID)
         == Done(InvoiceReply(Some(Invoice(0, 0.0, 0.0)), None), [StoreUsed(GetCall(obuID))])
  {
  }

  /** The corrected `Set.Calculate` over the corrected adapter is the basic
      service itself, on every store: the priced invoice, or the store's
      error and no invoice. */
  lemma SetCalculateCheckedRoundTrip(store: Storer, other: Endpoint, obuID: int)
    ensures SetCalculateChecked(Set(other, MakeConcatEndpointChecked(BasicService(store))), obuID)
         == BasicService(store).calculate(obuID)
  {
  }

  /** The whole as-written server stack over the composed service, with all
      guards admitting: recording always reports success to the caller even
      when the store fails, and an invoice request for a unit the store
      fails on panics. */
  lemma AsWrittenStack(store: Storer, gate: Gate, d: Distance, obuID: int)
    requires forall g :: gate(g) == Admit
    ensures AsService(New(KitService.New(store), gate)).aggregate(d).Outcome() == Done(None, [])
    ensures store.get(obuID).err.Some? ==>
      AsService(New(KitService.New(store), gate)).calculate(obuID).Outcome() == Panicked(NilDereference, [])
    ensures store.get(obuID).err.None? ==>
      AsService(New(KitService.New(store), gate)).calculate(obuID).Outcome()
        == Done(InvoiceReply(Some(Invoice(obuID, store.get(obuID).dist, BasePrice * store.get(obuID).dist)), None), [])
  {
    var svc := KitService.New(store);
    NewAnswersAsBasic(store, d, obuID);
    NewAdmitted(svc, gate, AggregateReq(ToRequest(d)));
    NewAdmitted(svc, gate, CalculateReq(CalculateRequest(obuID)));
    RequestRoundTrip(d, ToRequest(d));
  }

  /** The whole corrected server stack over the composed service, with all
      guards admitting, answers every call as the basic service over the
      store does: the store's insert error, the priced invoice or the
      store's get error. */
  lemma CheckedStackRoundTrip(store: Storer, gate: Gate, d: Distance, obuID: int)
    requires forall g :: gate(g) == Admit
    ensures AsServiceChecked(NewChecked(KitService.New(store), gate)).aggregate(d).Outcome()
         == BasicService(store).aggregate(d).Outcome()
    ensures AsServiceChecked(NewChecked(KitService.New(store), gate)).calculate(obuID).Outcome()
         == BasicService(store).calculate(obuID).Outcome()
  {
    var svc := KitService.New(store);
    NewAnswersAsBasic(store, d, obuID);
    var aReq := AggregateReq(ToRequest(d));
    var cReq := CalculateReq(CalculateRequest(obuID));
    BuildPassesThrough(AggregateLayers, gate, MakeAggregateEndpoint(svc), aReq);
    BuildPassesThrough(CalculateLayers, gate, MakeConcatEndpointChecked(svc), cReq);
    RequestRoundTrip(d, ToRequest(d));
  }
}
