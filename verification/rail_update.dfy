/**
 * The schema and action shape that the straight-rail and branch-rail
 * quantity updates share: `totalQuantity` is coerced to a number and must be
 * a positive integer; only a valid quantity is sent; a returned envelope's
 * own `isSuccess` and `message` become the result.
 */
module RailUpdate {
  import opened Wrappers
  import opened Js
  import opened Schema
  import opened Api
  import opened Messages

  /** The edited cell: a number, or `''` when the input was emptied. */
  datatype RawQuantity = Blank | Num(n: Number)

  /** The key of the quantity field's errors. */
  datatype QuantityField = TotalQuantity

  datatype UpdateRequest = UpdateRequest(railId: int, totalQuantity: int)

  datatype UpdateState = UpdateState(
    success: bool,
    message: Message,
    errors: Option<map<QuantityField, seq<Message>>>)

  /** `z.coerce.number()` of the raw cell: `Number('')` is 0. */
  function Coerce(q: RawQuantity): Number {
    match q
    case Blank => Finite(0.0)
    case Num(n) => n
  }

  /** `z.coerce.number().int().positive(...)`: NaN aborts; otherwise both checks run. */
  function QuantityCheck(q: RawQuantity): (c: FieldCheck<int>)
    ensures c.Aborted? <==> Coerce(q).NaN?
    ensures c.Ok() <==> IsInteger(Coerce(q)) && Coerce(q).value > 0.0
    ensures c.Ok() ==> c.value as real == Coerce(q).value && c.value >= 1
  {
    match Coerce(q)
    case NaN => Aborted([Expected(NumberType, NaNType)])
    case Finite(v) =>
      Checked(v.Floor, (if v == v.Floor as real then [] else [Expected(IntegerType, FloatType)])
                       + (if v > 0.0 then [] else [QuantityAtLeastOne]))
  }

  function QuantityErrors(q: RawQuantity): (m: map<QuantityField, seq<Message>>)
    ensures m == map[] <==> QuantityCheck(q).Ok()
  {
    Flatten({TotalQuantity}, field => QuantityCheck(q).messages)
  }

  /** The quantity rule, stated directly: a positive integer after coercion. */
  predicate ValidQuantity(q: RawQuantity) {
    q.Num? && IsInteger(q.n) && q.n.value >= 1.0
  }

  lemma ValidQuantityIff(q: RawQuantity)
    ensures QuantityCheck(q).Ok() <==> ValidQuantity(q)
  {
  }

  /** An emptied cell and a zero are both refused with the quantity message. */
  lemma BlankAndZeroRejected()
    ensures QuantityErrors(Blank)[TotalQuantity] == [QuantityAtLeastOne]
    ensures QuantityErrors(Num(Finite(0.0)))[TotalQuantity] == [QuantityAtLeastOne]
  {
    assert QuantityCheck(Blank).messages == [QuantityAtLeastOne];
  }

  /** A negative fraction fails both checks, in declaration order. */
  lemma NegativeFractionFailsBoth()
    ensures QuantityCheck(Num(Finite(-1.5))).messages == [Expected(IntegerType, FloatType), QuantityAtLeastOne]
  {
    assert (-1.5).Floor == -2;
  }

  /** One update run, with the fallback text the calling action uses. */
  function UpdateRailAction<D>(railId: int, q: RawQuantity,
                               backend: UpdateRequest -> Outcome<Envelope<D>>, fallback: Message)
    : (run: Run<UpdateRequest, UpdateState>)
    ensures run.sent.Some? <==> ValidQuantity(q)
    ensures run.sent.Some? ==>
      run.sent.value.railId == railId && run.sent.value.totalQuantity as real == q.n.value
      && run.sent.value.totalQuantity >= 1
    ensures !ValidQuantity(q) ==>
      run.state == UpdateState(false, InputRecheck, Some(QuantityErrors(q))) && QuantityErrors(q) != map[]
    ensures ValidQuantity(q) ==> run.state.errors.None?
    ensures ValidQuantity(q) && backend(run.sent.value).Returned? ==>
      run.state.success == backend(run.sent.value).response.isSuccess
      && run.state.message == Server(backend(run.sent.value).response.message)
    ensures ValidQuantity(q) && !backend(run.sent.value).Returned? ==>
      !run.state.success && run.state.message == ThrownMessage(backend(run.sent.value), fallback)
  {
    ValidQuantityIff(q);
    var check := QuantityCheck(q);
    if !check.Ok() then
      Run(None, UpdateState(false, InputRecheck, Some(QuantityErrors(q))))
    else
      var request := UpdateRequest(railId, check.value);
      match backend(request)
      case Returned(response) =>
        Run(Some(request), UpdateState(response.isSuccess, Server(response.message), None))
      case ThrewApiError(m) =>
        Run(Some(request), UpdateState(false, Server(m), None))
      case ThrewOther =>
        Run(Some(request), UpdateState(false, fallback, None))
  }
}
