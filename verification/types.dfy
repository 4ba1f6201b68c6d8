/** Values shared by the plain aggregator and the go-kit service: the Go
    `error` interface, the `types.Distance` and `types.Invoice` records,
    the fixed tariff, and the abstract accumulator store both services sit
    on. Go's `float64` is modelled as `real`, `int` and `int64` as `int`. */
module Types {

  /** A Go value that may be nil. */
  datatype Option<+T> = None | Some(value: T)

  /** A Go `(value, error)` pair where exactly one side is set. */
  datatype Result<+T> = Ok(value: T) | Err(error: Error)

  /** A non-nil Go `error`. `Failure` is any error whose only observable is
      its message; `ApiError` is the aggregator's HTTP error, a status code
      around a wrapped error. */
  datatype Error = Failure(text: string) | ApiError(code: int, err: Error) {

    /** `Error()`: an `ApiError` reports its wrapped error's message. */
    function Message(): string {
      match this
      case Failure(t) => t
      case ApiError(_, e) => e.Message()
    }
  }

  /** An `ApiError` wrapped around any error, however deeply nested, reports
      the message of the innermost plain error and never mentions a code. */
  lemma ApiErrorReportsWrappedMessage(code: int, e: Error)
    ensures ApiError(code, e).Message() == e.Message()
    ensures e.ApiError? ==> ApiError(code, e).Message() == e.err.Message()
  {
  }

  /** One distance increment of one on-board unit. */
  datatype Distance = Distance(obuID: int, value: real, unix: int)

  datatype Invoice = Invoice(obuID: int, totalDistance: real, totalAmount: real)

  /** Go's `(*types.Invoice, error)` pair; both halves may be nil or set. */
  datatype InvoiceReply = InvoiceReply(invoice: Option<Invoice>, err: Option<Error>)

  /** The tariff per unit of distance (both services declare 3.15). */
  const BasePrice: real := 3.15

  /** The billing relation: the amount is the distance at the tariff. */
  predicate Priced(inv: Invoice) {
    inv.totalAmount == BasePrice * inv.totalDistance
  }

  /** A reply of the form both billing services promise: either an error and
      no invoice, or a priced invoice for `obuID` and no error. */
  predicate WellFormedReply(obuID: int, r: InvoiceReply) {
    || (r.invoice.None? && r.err.Some?)
    || (r.err.None? && r.invoice.Some? && r.invoice.value.obuID == obuID && Priced(r.invoice.value))
  }

  /** The outcome of a JSON decode into a Go value: the (possibly partially
      filled) value and the decoder's error. */
  datatype Decoded<+T> = Decoded(value: T, err: Option<Error>)

  /** Answer of `Storer.Get`: Go's `(float64, error)` pair. */
  datatype GetReply = GetReply(dist: real, err: Option<Error>)

  /** The `Storer` interface, as the answers the store gives at the moment
      of a call. Its implementation is not part of this model: nothing is
      assumed about how `Insert` changes what `Get` later answers. */
  datatype Storer = Storer(insert: Distance -> Option<Error>, get: int -> GetReply)

  /** One call a service makes on its store. */
  datatype StoreCall = InsertCall(distance: Distance) | GetCall(obuID: int)
}
