/** The plain aggregator's gRPC binding: `GPRCAggregatorServer.Aggregate`
    turns the generated request message into a Distance and records it. */
module BillingGrpc {
  import opened Types
  import opened BillingService

  /** The fields of `types.AggregateRequest`. The generated message type is
      not part of this model; `int(req.ObuID)` is taken to keep the value,
      which holds for any integer field no wider than Go's `int`. */
  datatype AggregateRequest = AggregateRequest(obuID: int, value: real, unix: int)

  /** The empty `types.None` reply message. */
  datatype NoneMessage = NoneMessage

  /** What one `Aggregate` call returns, and the service calls it made. */
  datatype Reply = Reply(response: Option<NoneMessage>, err: Option<Error>, calls: seq<AggCall>)

  /** The Distance built from a request: each field copied. */
  function ToDistance(req: AggregateRequest): (d: Distance)
    ensures d.obuID == req.obuID && d.value == req.value && d.unix == req.unix
  {
    Distance(req.obuID, req.value, req.unix)
  }

  /** `Aggregate`: one service call with the copied Distance; the service
      error is returned unchanged beside a non-nil empty reply, which is
      there even when the service fails. */
  function Aggregate(svc: Aggregator, req: AggregateRequest): (r: Reply)
    ensures r.response == Some(NoneMessage)
    ensures r.calls == [AggregateDistanceCall(Distance(req.obuID, req.value, req.unix))]
    ensures r.err == svc.aggregateDistance(r.calls[0].distance)
  {
    var d := ToDistance(req);
    Reply(Some(NoneMessage), svc.aggregateDistance(d), [AggregateDistanceCall(d)])
  }

  /** Over a store, a gRPC `Aggregate` inserts exactly the received
      increment once and fails exactly when the store's insert fails, with
      the store's error. */
  lemma AggregateOverStore(store: Storer, req: AggregateRequest)
    ensures Aggregate(NewInvoiceAggregator(store), req).err == store.insert(Distance(req.obuID, req.value, req.unix))
    ensures Aggregate(NewInvoiceAggregator(store), req).response.Some?
  {
  }
}
