/** The plain aggregator's billing service, `InvoiceAggregator`, a façade
    over an abstract `Storer`: recording a distance forwards it to the
    store, computing an invoice reads the accumulated distance and prices
    it. Every operation also reports the store calls it made, so that
    "only reads" and "passes the distance unchanged" can be stated. */
module BillingService {
  import opened Types

  /** A result together with the calls made, in order, on a collaborator. */
  datatype Traced<+T, +C> = Traced(value: T, calls: seq<C>)

  /** `InvoiceAggregator.AggregateDistance`: one `Insert` of the very
      distance received; the store's error is the result. */
  function AggregateDistance(store: Storer, d: Distance): (r: Traced<Option<Error>, StoreCall>)
    ensures r.calls == [InsertCall(d)]
    ensures r.value == store.insert(d)
  {
    Traced(store.insert(d), [InsertCall(d)])
  }

  /** `InvoiceAggregator.CalculateInvoice`: one `Get` for the unit; a store
      error comes back with no invoice, otherwise the invoice prices the
      accumulated distance. */
  function CalculateInvoice(store: Storer, obuID: int): (r: Traced<InvoiceReply, StoreCall>)
    ensures r.calls == [GetCall(obuID)]
    ensures WellFormedReply(obuID, r.value)
    ensures store.get(obuID).err.Some? ==> r.value == InvoiceReply(None, store.get(obuID).err)
    ensures store.get(obuID).err.None? ==> r.value.invoice.Some? && r.value.invoice.value.totalDistance == store.get(obuID).dist
  {
    var reply := store.get(obuID);
    if reply.err.Some? then
      Traced(InvoiceReply(None, reply.err), [GetCall(obuID)])
    else
      Traced(InvoiceReply(Some(Invoice(obuID, reply.dist, BasePrice * reply.dist)), None), [GetCall(obuID)])
  }

  /** Computing an invoice never inserts, and its outcome depends on nothing
      but the store's answer to `Get(obuID)`: two stores that answer that
      call alike (whatever they do on `Insert` or on other units) give the
      same invoice, so repeated calls on an unchanged store agree. */
  lemma InvoiceReadsOnlyGet(s1: Storer, s2: Storer, obuID: int)
    requires s1.get(obuID) == s2.get(obuID)
    ensures CalculateInvoice(s1, obuID) == CalculateInvoice(s2, obuID)
    ensures forall i | 0 <= i < |CalculateInvoice(s1, obuID).calls| :: !CalculateInvoice(s1, obuID).calls[i].InsertCall?
  {
  }

  /** The `Aggregator` interface, as the answers a service gives to a call. */
  datatype Aggregator = Aggregator(aggregateDistance: Distance -> Option<Error>, calculateInvoice: int -> InvoiceReply)

  /** One call a transport makes on an `Aggregator`. */
  datatype AggCall = AggregateDistanceCall(distance: Distance) | CalculateInvoiceCall(obuID: int)

  /** `NewInvoiceAggregator`: the service over a store. */
  function NewInvoiceAggregator(store: Storer): Aggregator {
    Aggregator(d => AggregateDistance(store, d).value, obuID => CalculateInvoice(store, obuID).value)
  }

  /** The service built over a store forwards an increment to `Insert`
      unchanged and returns the store's error unchanged; its invoices are
      always well formed and carry the store's distance. */
  lemma NewInvoiceAggregatorOverStore(store: Storer, d: Distance, obuID: int)
    ensures NewInvoiceAggregator(store).aggregateDistance(d) == store.insert(d)
    ensures WellFormedReply(obuID, NewInvoiceAggregator(store).calculateInvoice(obuID))
    ensures store.get(obuID).err.Some? ==>
      NewInvoiceAggregator(store).calculateInvoice(obuID) == InvoiceReply(None, store.get(obuID).err)
    ensures store.get(obuID).err.None? ==>
      NewInvoiceAggregator(store).calculateInvoice(obuID)
        == InvoiceReply(Some(Invoice(obuID, store.get(obuID).dist, 3.15 * store.get(obuID).dist)), None)
  {
  }
}
