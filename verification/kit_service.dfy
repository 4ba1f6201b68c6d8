/** The go-kit aggregation service: `BasicService` over a `Storer`, the
    service-level logging and instrumentation middlewares, and `New`, which
    stacks them. A call's observable side effects (store calls, log lines,
    metric observations) travel with its result, and a Go panic is an
    outcome of its own, since deferred logging still runs while a panic
    unwinds. */
module KitService {
  import opened Types
  import BillingService

  /** Why a call panicked. */
  datatype Panic = NilDereference | FailedTypeAssertion

  /** A side effect of a call: a store call, a log line (only its `err`
      field is kept), or a metric observation with its label. */
  datatype Effect =
    | StoreUsed(call: StoreCall)
    | Logged(err: Option<Error>)
    | Observed(operation: string, tag: string)

  /** The outcome of a call with the effects it had, in order. */
  datatype Call<+T> = Done(value: T, effects: seq<Effect>) | Panicked(panic: Panic, effects: seq<Effect>) {

    /** The outcome without its effects: what the caller gets back. */
    function Outcome(): Call<T> {
      match this
      case Done(v, _) => Done(v, [])
      case Panicked(p, _) => Panicked(p, [])
    }
  }

  /** The call with one more effect after those it already had. */
  function Append<T>(c: Call<T>, e: Effect): (r: Call<T>)
    ensures r.Outcome() == c.Outcome()
    ensures r.effects == c.effects + [e]
  {
    match c
    case Done(v, eff) => Done(v, eff + [e])
    case Panicked(p, eff) => Panicked(p, eff + [e])
  }

  /** The `Service` interface, as the answers a service gives to a call. The
      `context.Context` argument is passed through unchanged by every layer
      and used by none, so it is left out. */
  datatype Service = Service(aggregate: Distance -> Call<Option<Error>>, calculate: int -> Call<InvoiceReply>)

  /** `BasicService`: `Aggregate` is one `Insert` of the distance received,
      `Calculate` one `Get` priced at the tariff. */
  function BasicService(store: Storer): Service {
    Service(
      d => Done(store.insert(d), [StoreUsed(InsertCall(d))]),
      obuID =>
        var reply := store.get(obuID);
        if reply.err.Some? then
          Done(InvoiceReply(None, reply.err), [StoreUsed(GetCall(obuID))])
        else
          Done(InvoiceReply(Some(Invoice(obuID, reply.dist, BasePrice * reply.dist)), None), [StoreUsed(GetCall(obuID))]))
  }

  /** `BasicService` returns exactly the store's insert error, and exactly
      the invoice the plain aggregator computes: the two services agree on
      every store, and both make the same single store call. */
  lemma BasicServiceMatchesAggregator(store: Storer, d: Distance, obuID: int)
    ensures BasicService(store).aggregate(d)
         == Done(BillingService.AggregateDistance(store, d).value, [StoreUsed(InsertCall(d))])
    ensures BasicService(store).calculate(obuID)
         == Done(BillingService.CalculateInvoice(store, obuID).value, [StoreUsed(GetCall(obuID))])
    ensures WellFormedReply(obuID, BasicService(store).calculate(obuID).value)
  {
  }

  /** The `err` a deferred log line sees: the named result, still nil when
      the call panics. */
  function AggregateErr(c: Call<Option<Error>>): Option<Error> {
    if c.Done? then c.value else None
  }

  function CalculateErr(c: Call<InvoiceReply>): Option<Error> {
    if c.Done? then c.value.err else None
  }

  /** A `Middleware` (a `Service` to `Service` function) of this package. */
  datatype Middleware = LoggingMiddleware | InstrumentationMiddleware

  /** A middleware around a service. Logging calls `next` once, returns its
      answer unchanged and logs once afterwards with the final `err`;
      instrumentation only delegates. */
  function Apply(m: Middleware, next: Service): Service {
    match m
    case LoggingMiddleware =>
      Service(
        d => var c := next.aggregate(d); Append(c, Logged(AggregateErr(c))),
        obuID => var c := next.calculate(obuID); Append(c, Logged(CalculateErr(c))))
    case InstrumentationMiddleware =>
      Service(d => next.aggregate(d), obuID => next.calculate(obuID))
  }

  /** The service with the middlewares applied in order, the first one
      innermost. */
  function Stack(ms: seq<Middleware>, inner: Service): Service
    decreases |ms|
  {
    if ms == [] then inner else Stack(ms[1..], Apply(ms[0], inner))
  }

  /** How many logging layers a stack holds. */
  function LoggingLayers(ms: seq<Middleware>): nat
    decreases |ms|
  {
    if ms == [] then 0 else (if ms[0] == LoggingMiddleware then 1 else 0) + LoggingLayers(ms[1..])
  }

  /** `n` copies of one effect. */
  function Repeat(e: Effect, n: nat): (r: seq<Effect>)
    ensures |r| == n
    ensures forall i | 0 <= i < n :: r[i] == e
  {
    if n == 0 then [] else [e] + Repeat(e, n - 1)
  }

  /** One middleware answers as `next` does; logging adds one log line with
      the final `err` after `next`'s effects, instrumentation adds nothing. */
  lemma ApplyPassesThrough(m: Middleware, next: Service, d: Distance, obuID: int)
    ensures Apply(m, next).aggregate(d).Outcome() == next.aggregate(d).Outcome()
    ensures Apply(m, next).calculate(obuID).Outcome() == next.calculate(obuID).Outcome()
    ensures Apply(m, next).aggregate(d).effects
         == next.aggregate(d).effects + Repeat(Logged(AggregateErr(next.aggregate(d))), LoggingLayers([m]))
    ensures Apply(m, next).calculate(obuID).effects
         == next.calculate(obuID).effects + Repeat(Logged(CalculateErr(next.calculate(obuID))), LoggingLayers([m]))
  {
  }

  /** Any stack of these middlewares is observationally the inner service:
      the same answer (or the same panic), the inner effects first, then one
      log line per logging layer carrying the inner `err`. */
  lemma {:induction false} StackPassesThrough(ms: seq<Middleware>, inner: Service, d: Distance, obuID: int)
    ensures Stack(ms, inner).aggregate(d).Outcome() == inner.aggregate(d).Outcome()
    ensures Stack(ms, inner).calculate(obuID).Outcome() == inner.calculate(obuID).Outcome()
    ensures Stack(ms, inner).aggregate(d).effects
         == inner.aggregate(d).effects + Repeat(Logged(AggregateErr(inner.aggregate(d))), LoggingLayers(ms))
    ensures Stack(ms, inner).calculate(obuID).effects
         == inner.calculate(obuID).effects + Repeat(Logged(CalculateErr(inner.calculate(obuID))), LoggingLayers(ms))
    decreases |ms|
  {
    if ms != [] {
      var next := Apply(ms[0], inner);
      ApplyPassesThrough(ms[0], inner, d, obuID);
      StackPassesThrough(ms[1..], next, d, obuID);
      assert AggregateErr(next.aggregate(d)) == AggregateErr(inner.aggregate(d));
      assert CalculateErr(next.calculate(obuID)) == CalculateErr(inner.calculate(obuID));
      var k := LoggingLayers([ms[0]]);
      assert LoggingLayers(ms) == k + LoggingLayers(ms[1..]);
      RepeatConcat(Logged(AggregateErr(inner.aggregate(d))), k, LoggingLayers(ms[1..]));
      RepeatConcat(Logged(CalculateErr(inner.calculate(obuID))), k, LoggingLayers(ms[1..]));
    }
  }

  /** Runs of one effect concatenate by adding their lengths. */
  lemma RepeatConcat(e: Effect, a: nat, b: nat)
    ensures Repeat(e, a) + Repeat(e, b) == Repeat(e, a + b)
  {
  }

  /** The layers of `New`: logging around the basic service, then
      instrumentation outermost. */
  const NewLayers: seq<Middleware> := [LoggingMiddleware, InstrumentationMiddleware]

  /** `New`: the complete service over a store (the source builds it over
      its in-memory store, which is not part of this model). */
  function New(store: Storer): Service {
    Stack(NewLayers, BasicService(store))
  }

  /** The composed service answers exactly as the basic service does: one
      store call with the caller's arguments, then one log line with the
      store's error. */
  lemma NewAnswersAsBasic(store: Storer, d: Distance, obuID: int)
    ensures New(store).aggregate(d) == Done(store.insert(d), [StoreUsed(InsertCall(d)), Logged(store.insert(d))])
    ensures New(store).calculate(obuID).Outcome() == BasicService(store).calculate(obuID).Outcome()
    ensures New(store).calculate(obuID).effects
         == [StoreUsed(GetCall(obuID)), Logged(BasicService(store).calculate(obuID).value.err)]
  {
    StackPassesThrough(NewLayers, BasicService(store), d, obuID);
    assert LoggingLayers(NewLayers) == 1;
  }
}
