/**
 * The `Order` aggregate: its bounds, the three factories with their ordered
 * validation, the four transitions `open`, `fill`, `cancel` and `reject`, and
 * the derived read-only values.
 *
 * The fields of an order are gathered in the value `OrderState`; the
 * validation, the factories and the transitions are functions on it, and the
 * class `Order` holds the same fields and updates them in place, each method
 * proved to do what the corresponding step function says.
 */
module Orders {
  import opened PyStr
  import opened TradingErrors
  import opened ValueObjects

  const MIN_QUANTITY: real := 0.00000001
  const MAX_QUANTITY: real := 1000000.0
  const MIN_PRICE: real := 0.01
  const MAX_PRICE: real := 1000000000.0

  /** `str()` of the four Decimal constants, as they appear inside messages. */
  const MIN_QUANTITY_TEXT: string := "1E-8"
  const MAX_QUANTITY_TEXT: string := "1000000"
  const MIN_PRICE_TEXT: string := "0.01"
  const MAX_PRICE_TEXT: string := "1000000000"

  /** Every attribute of an `Order`; timestamps are clock readings. */
  datatype OrderState = OrderState(
    orderId: string,
    userId: string,
    pair: TradingPair,
    side: Side,
    orderType: OrderType,
    price: Money,
    quantity: real,
    status: Status,
    filled: real,
    createdAt: int,
    updatedAt: int)

  /** The status as it is interpolated into the transition messages. */
  function StatusText(s: Status): string {
    StatusTag(s)
  }

  // ----------------------------------------------------------- validation

  /** The price window a LIMIT order must fall in, in the pair's quote currency. */
  predicate PriceAcceptable(price: Money, pair: TradingPair) {
    MIN_PRICE <= price.amount <= MAX_PRICE && price.currency == pair.quote
  }

  predicate QuantityAcceptable(q: real) {
    MIN_QUANTITY <= q <= MAX_QUANTITY
  }

  /** `_validate_price`: MARKET passes, otherwise four checks and the first failing one decides. */
  function ValidatePrice(s: OrderState): (r: Outcome)
    ensures r == Pass <==> s.orderType == Market || PriceAcceptable(s.price, s.pair)
    ensures s.orderType != Market && s.price.amount <= 0.0 ==>
      r == Fail(InvalidPrice([Num(s.price.amount)], Str("Price must be greater than 0")))
    ensures s.orderType != Market && 0.0 < s.price.amount < MIN_PRICE ==>
      r == Fail(InvalidPrice([Num(s.price.amount)], Str("Price must be at least " + MIN_PRICE_TEXT)))
    ensures s.orderType != Market && s.price.amount > MAX_PRICE ==>
      r == Fail(InvalidPrice([Num(s.price.amount)], Str("Price must not exceed " + MAX_PRICE_TEXT)))
    ensures s.orderType != Market && MIN_PRICE <= s.price.amount <= MAX_PRICE && s.price.currency != s.pair.quote ==>
      r == Fail(OrderValidation(Str("Price currency " + s.price.currency + " does not match quote currency "
                                    + s.pair.quote)))
  {
    var amount := s.price.amount;
    if s.orderType == Market then Pass
    else if amount <= 0.0 then Fail(InvalidPrice([Num(amount)], Str("Price must be greater than 0")))
    else if amount < MIN_PRICE then Fail(InvalidPrice([Num(amount)], Str("Price must be at least " + MIN_PRICE_TEXT)))
    else if amount > MAX_PRICE then Fail(InvalidPrice([Num(amount)], Str("Price must not exceed " + MAX_PRICE_TEXT)))
    else if s.price.currency != s.pair.quote then
      Fail(OrderValidation(Str("Price currency " + s.price.currency + " does not match quote currency " + s.pair.quote)))
    else Pass
  }

  /**
   * `_validate_quantity`: three checks in order. An oversized quantity raises the
   * plain `InvalidQuantity` kind, not `QuantityAboveMaximum`.
   */
  function ValidateQuantity(q: real): (r: Outcome)
    ensures r == Pass <==> QuantityAcceptable(q)
    ensures q <= 0.0 ==> r == Fail(InvalidQuantity([Num(q)], Str("Quantity must be greater than 0")))
    ensures 0.0 < q < MIN_QUANTITY ==> r == Fail(QuantityBelowMinimum([Num(q)], Str(MIN_QUANTITY_TEXT)))
    ensures q > MAX_QUANTITY ==>
      r == Fail(InvalidQuantity([Num(q)], Str("Quantity must not exceed " + MAX_QUANTITY_TEXT)))
    ensures r.Fail? ==> IsInvalidQuantityError(r.error) && !r.error.QuantityAboveMaximum?
    ensures r.Fail? ==> r.error.InvalidQuantity? || r.error.QuantityBelowMinimum?
  {
    if q <= 0.0 then Fail(InvalidQuantity([Num(q)], Str("Quantity must be greater than 0")))
    else if q < MIN_QUANTITY then Fail(QuantityBelowMinimum([Num(q)], Str(MIN_QUANTITY_TEXT)))
    else if q > MAX_QUANTITY then Fail(InvalidQuantity([Num(q)], Str("Quantity must not exceed " + MAX_QUANTITY_TEXT)))
    else Pass
  }

  /** `_validate`: the price first, then the quantity. */
  function Validate(s: OrderState): (r: Outcome)
    ensures r == Pass <==> (s.orderType == Market || PriceAcceptable(s.price, s.pair)) && QuantityAcceptable(s.quantity)
    ensures ValidatePrice(s).Fail? ==> r == ValidatePrice(s)
    ensures ValidatePrice(s) == Pass ==> r == ValidateQuantity(s.quantity)
  {
    if ValidatePrice(s).Fail? then ValidatePrice(s) else ValidateQuantity(s.quantity)
  }

  /** Raises what the outcome holds, or hands back the order. */
  function Checked(o: Outcome, s: OrderState): (r: Result<OrderState>)
    ensures r.Ok? <==> o == Pass
    ensures r.Ok? ==> r.value == s
    ensures r.Err? ==> o == Fail(r.error)
  {
    match o
    case Pass => Ok(s)
    case Fail(e) => Err(e)
  }

  // ------------------------------------------------------------ factories

  /** `f"ORD-{hex[:12].upper()}"`, given the twelve hex digits of a fresh UUID. */
  function OrderId(hex12: string): (id: string)
    ensures |id| == 4 + |hex12| && id[..4] == "ORD-"
    ensures id[4..] == Upper(hex12)
  {
    "ORD-" + Upper(hex12)
  }

  /**
   * An order as `__init__` leaves it when neither status, fill nor timestamps are
   * passed: PENDING, nothing filled, and both timestamps read from the clock (one
   * reading, `now`, stands for the two).
   */
  function Initial(orderId: string, userId: string, pair: TradingPair, side: Side, orderType: OrderType,
                   price: Money, quantity: real, now: int): (r: OrderState)
    ensures r.status == Pending && r.filled == 0.0 && r.createdAt == now && r.updatedAt == now
    ensures r.orderId == orderId && r.userId == userId && r.pair == pair && r.side == side
      && r.orderType == orderType && r.price == price && r.quantity == quantity
  {
    OrderState(orderId, userId, pair, side, orderType, price, quantity, Pending, 0.0, now, now)
  }

  /** What every factory promises of the order it returns. */
  predicate IsFresh(s: OrderState, now: int) {
    s.status == Pending && s.filled == 0.0 && |s.orderId| >= 4 && s.orderId[..4] == "ORD-"
    && s.createdAt == now && s.updatedAt == now
  }

  /** Whether `create` accepts: LIMIT checks price and quantity, MARKET quantity only, STOP_LOSS nothing. */
  predicate CreateAccepts(orderType: OrderType, pair: TradingPair, price: Money, quantity: real) {
    match orderType
    case Limit => PriceAcceptable(price, pair) && QuantityAcceptable(quantity)
    case Market => QuantityAcceptable(quantity)
    case StopLoss => true
  }

  /** `Order.create`: the generic factory, validating according to the type. */
  function Create(hex12: string, userId: string, pair: TradingPair, side: Side, orderType: OrderType,
                  price: Money, quantity: real, now: int): (r: Result<OrderState>)
    ensures r.Ok? <==> CreateAccepts(orderType, pair, price, quantity)
    ensures r.Ok? ==> (IsFresh(r.value, now)
      && r.value == Initial(OrderId(hex12), userId, pair, side, orderType, price, quantity, now))
    ensures r.Err? ==> orderType != StopLoss && (r.error.InvalidPrice? || r.error.OrderValidation? || IsInvalidQuantityError(r.error))
  {
    var s := Initial(OrderId(hex12), userId, pair, side, orderType, price, quantity, now);
    match orderType
    case Limit => Checked(Validate(s), s)
    case Market => Checked(ValidateQuantity(quantity), s)
    case StopLoss => Ok(s)
  }

  /**
   * `Order.place_limit_order`: parse the symbol, price the order in the quote
   * currency (the Money constructor rejects a negative price before any order
   * check runs), then `_validate`.
   */
  function PlaceLimitOrder(hex12: string, userId: string, symbol: string, side: Side, price: real,
                           quantity: real, now: int): (r: Result<OrderState>)
    ensures FromSymbol(symbol).Err? ==> r == Err(FromSymbol(symbol).error)
    ensures FromSymbol(symbol).Ok? && price < 0.0 ==> r.Err? && r.error.ValueError?
    ensures r.Ok? <==> FromSymbol(symbol).Ok? && MIN_PRICE <= price <= MAX_PRICE && QuantityAcceptable(quantity)
    ensures r.Err? ==> (r.error.ValueError? || r.error.InvalidPrice? || r.error.InvalidQuantity?
                        || r.error.QuantityBelowMinimum?)
    ensures r.Ok? ==> (IsFresh(r.value, now) && r.value.orderType == Limit && r.value.pair == FromSymbol(symbol).value
      && r.value.price == Money(price, r.value.pair.quote) && r.value.quantity == quantity
      && r.value.orderId == OrderId(hex12) && r.value.userId == userId && r.value.side == side)
  {
    var pair :- FromSymbol(symbol);
    var money :- MakeMoney(price, pair.quote);
    var s := Initial(OrderId(hex12), userId, pair, side, Limit, money, quantity, now);
    Checked(Validate(s), s)
  }

  /** `Order.place_market_order`: the price is zero in the quote currency and only the quantity is checked. */
  function PlaceMarketOrder(hex12: string, userId: string, symbol: string, side: Side, quantity: real,
                            now: int): (r: Result<OrderState>)
    ensures FromSymbol(symbol).Err? ==> r == Err(FromSymbol(symbol).error)
    ensures r.Ok? <==> FromSymbol(symbol).Ok? && QuantityAcceptable(quantity)
    ensures r.Err? ==> r.error.ValueError? || r.error.InvalidQuantity? || r.error.QuantityBelowMinimum?
    ensures r.Ok? ==> (IsFresh(r.value, now) && r.value.orderType == Market && r.value.pair == FromSymbol(symbol).value
      && r.value.price == Money(0.0, r.value.pair.quote) && r.value.quantity == quantity
      && r.value.orderId == OrderId(hex12) && r.value.userId == userId && r.value.side == side)
  {
    var pair :- FromSymbol(symbol);
    // the quote of a parsed pair is never blank, so this price cannot fail
    var money := MakeMoney(0.0, pair.quote).value;
    var s := Initial(OrderId(hex12), userId, pair, side, Market, money, quantity, now);
    Checked(ValidateQuantity(quantity), s)
  }

  // ---------------------------------------------------------- transitions

  /** The legal status changes: the reference the four transitions are checked against. */
  predicate Legal(from: Status, to: Status) {
    (from == Pending && (to == Open || to == Rejected))
    || ((from == Open || from == PartialFilled) && (to == PartialFilled || to == Filled || to == Cancelled))
  }

  /** The statuses no transition leaves. */
  predicate Terminal(s: Status) {
    s == Filled || s == Cancelled || s == Rejected
  }

  predicate Fillable(s: Status) {
    s == Open || s == PartialFilled
  }

  /** Two states of one order: everything but the four mutable fields agrees. */
  predicate SameOrder(a: OrderState, b: OrderState) {
    a.orderId == b.orderId && a.userId == b.userId && a.pair == b.pair && a.side == b.side
    && a.orderType == b.orderType && a.quantity == b.quantity && a.createdAt == b.createdAt
  }

  /** The invariant `fill` keeps: `0 <= filled_quantity <= quantity`. */
  predicate Bounded(s: OrderState) {
    0.0 <= s.filled <= s.quantity
  }

  function CannotOpen(s: Status): Error {
    InvalidOrderOperation(Str("Cannot open order with status " + StatusText(s) + ". Expected: PENDING"))
  }

  function CannotFill(s: Status): Error {
    InvalidOrderOperation(Str("Cannot fill order with status " + StatusText(s)))
  }

  function NonPositiveFill(q: real): Error {
    InvalidQuantity([Num(q)], Str("Filled quantity must be greater than 0"))
  }

  function Overfill(q: real, remaining: real): Error {
    InvalidQuantity([Num(q)], [Lit("Cannot fill "), Num(q), Lit(". Remaining quantity: "), Num(remaining)])
  }

  function CannotCancel(s: Status): Error {
    InvalidOrderOperation(Str("Cannot cancel order with status " + StatusText(s)
                              + ". Only OPEN or PARTIAL_FILLED orders can be cancelled."))
  }

  /** The message has two spaces before "Expected". */
  function CannotReject(s: Status): Error {
    InvalidOrderOperation(Str("Cannot reject order with status " + StatusText(s) + ".  Expected: PENDING"))
  }

  /** `open()`: from PENDING only, to OPEN. */
  function OpenStep(s: OrderState, now: int): (r: Result<OrderState>)
    ensures r.Ok? <==> s.status == Pending
    ensures r.Err? ==> r.error == CannotOpen(s.status)
    ensures r.Ok? ==> r.value == s.(status := Open, updatedAt := now)
  {
    if s.status != Pending then Err(CannotOpen(s.status))
    else Ok(s.(status := Open, updatedAt := now))
  }

  /**
   * `fill(q, execution_price)`: the status must allow it, `q` must be positive and the
   * total must not exceed the quantity; the status then becomes FILLED exactly when
   * the total reaches the quantity. A supplied execution price (any `Money` is truthy)
   * replaces the price.
   */
  function FillStep(s: OrderState, q: real, executionPrice: Option<Money>, now: int): (r: Result<OrderState>)
    ensures r.Ok? <==> Fillable(s.status) && q > 0.0 && s.filled + q <= s.quantity
    ensures !Fillable(s.status) ==> r == Err(CannotFill(s.status))
    ensures Fillable(s.status) && q <= 0.0 ==> r == Err(NonPositiveFill(q))
    ensures Fillable(s.status) && q > 0.0 && s.filled + q > s.quantity ==> r == Err(Overfill(q, s.quantity - s.filled))
    ensures r.Ok? ==> (SameOrder(s, r.value) && r.value.filled == s.filled + q && r.value.updatedAt == now
      && (r.value.status == Filled <==> r.value.filled >= s.quantity)
      && (r.value.status != Filled ==> r.value.status == PartialFilled)
      && r.value.price == (if executionPrice.Some? then executionPrice.value else s.price))
  {
    if !Fillable(s.status) then Err(CannotFill(s.status))
    else if q <= 0.0 then Err(NonPositiveFill(q))
    else if s.filled + q > s.quantity then Err(Overfill(q, s.quantity - s.filled))
    else
      var price := if executionPrice.Some? then executionPrice.value else s.price;
      var status := if s.filled + q >= s.quantity then Filled else PartialFilled;
      Ok(s.(filled := s.filled + q, price := price, status := status, updatedAt := now))
  }

  /** `cancel()`: from OPEN or PARTIAL_FILLED only, to CANCELLED. */
  function CancelStep(s: OrderState, now: int): (r: Result<OrderState>)
    ensures r.Ok? <==> Fillable(s.status)
    ensures r.Err? ==> r.error == CannotCancel(s.status)
    ensures r.Ok? ==> r.value == s.(status := Cancelled, updatedAt := now)
  {
    if !Fillable(s.status) then Err(CannotCancel(s.status))
    else Ok(s.(status := Cancelled, updatedAt := now))
  }

  /** `reject(reason)`: from PENDING only, to REJECTED; the reason is not recorded. */
  function RejectStep(s: OrderState, reason: string, now: int): (r: Result<OrderState>)
    ensures r.Ok? <==> s.status == Pending
    ensures r.Err? ==> r.error == CannotReject(s.status)
    ensures r.Ok? ==> r.value == s.(status := Rejected, updatedAt := now)
  {
    if s.status != Pending then Err(CannotReject(s.status))
    else Ok(s.(status := Rejected, updatedAt := now))
  }

  /** How a transition's outcome relates the state before and after: an error changes nothing. */
  predicate Effect(step: Result<OrderState>, before: OrderState, r: Outcome, after: OrderState) {
    match step
    case Ok(s) => r == Pass && after == s
    case Err(e) => r == Fail(e) && after == before
  }

  /** Every successful transition is a legal status change. */
  lemma TransitionsAreLegal(s: OrderState, q: real, p: Option<Money>, reason: string, now: int)
    ensures OpenStep(s, now).Ok? ==> Legal(s.status, OpenStep(s, now).value.status)
    ensures FillStep(s, q, p, now).Ok? ==> Legal(s.status, FillStep(s, q, p, now).value.status)
    ensures CancelStep(s, now).Ok? ==> Legal(s.status, CancelStep(s, now).value.status)
    ensures RejectStep(s, reason, now).Ok? ==> Legal(s.status, RejectStep(s, reason, now).value.status)
  {
  }

  /** Every successful transition keeps `0 <= filled_quantity <= quantity` and the order's identity. */
  lemma TransitionsKeepBounds(s: OrderState, q: real, p: Option<Money>, reason: string, now: int)
    requires Bounded(s)
    ensures OpenStep(s, now).Ok? ==> SameOrder(s, OpenStep(s, now).value)
    ensures CancelStep(s, now).Ok? ==> SameOrder(s, CancelStep(s, now).value)
    ensures RejectStep(s, reason, now).Ok? ==> SameOrder(s, RejectStep(s, reason, now).value)
    ensures FillStep(s, q, p, now).Ok? ==> Bounded(FillStep(s, q, p, now).value)
    ensures OpenStep(s, now).Ok? ==> Bounded(OpenStep(s, now).value)
    ensures CancelStep(s, now).Ok? ==> Bounded(CancelStep(s, now).value)
    ensures RejectStep(s, reason, now).Ok? ==> Bounded(RejectStep(s, reason, now).value)
  {
  }

  /** No transition leaves FILLED, CANCELLED or REJECTED, and none returns to PENDING. */
  lemma TerminalIsFinal(s: OrderState, q: real, p: Option<Money>, reason: string, now: int)
    ensures Terminal(s.status) ==>
      OpenStep(s, now).Err? && FillStep(s, q, p, now).Err? && CancelStep(s, now).Err? && RejectStep(s, reason, now).Err?
    ensures forall from: Status, to: Status :: Legal(from, to) ==> to != Pending && !Terminal(from)
  {
  }

  // ------------------------------------------------------- repeated fills

  function Sum(qs: seq<real>): real {
    if qs == [] then 0.0 else qs[0] + Sum(qs[1..])
  }

  predicate AllPositive(qs: seq<real>) {
    forall i :: 0 <= i < |qs| ==> qs[i] > 0.0
  }

  /** A sequence of `fill(q)` calls without execution price; the first failure is raised. */
  function FillAll(s: OrderState, qs: seq<real>, now: int): Result<OrderState>
    decreases |qs|
  {
    if qs == [] then Ok(s)
    else
      var t :- FillStep(s, qs[0], None, now);
      FillAll(t, qs[1..], now)
  }

  lemma {:induction false} SumPositive(qs: seq<real>)
    requires AllPositive(qs)
    ensures qs != [] ==> Sum(qs) > 0.0
    ensures qs == [] ==> Sum(qs) == 0.0
  {
    if qs != [] {
      SumPositive(qs[1..]);
    }
  }

  /**
   * Fills accumulate: whatever sequence of fills succeeds adds up its quantities,
   * keeps the bounds and never lowers `filled_quantity`.
   */
  lemma {:induction false} FillsAccumulate(s: OrderState, qs: seq<real>, now: int)
    requires Bounded(s)
    ensures FillAll(s, qs, now).Ok? ==>
      var t := FillAll(s, qs, now).value;
      SameOrder(s, t) && Bounded(t) && t.filled == s.filled + Sum(qs) && t.filled >= s.filled
      && t.quantity - t.filled == s.quantity - s.filled - Sum(qs)
      && (qs != [] ==> Fillable(s.status) && (t.status == Filled || t.status == PartialFilled))
    decreases |qs|
  {
    if qs != [] {
      var step := FillStep(s, qs[0], None, now);
      if step.Ok? {
        FillsAccumulate(step.value, qs[1..], now);
        if qs[1..] != [] && FillAll(step.value, qs[1..], now).Ok? {
          assert Fillable(step.value.status);
        }
      }
    }
  }

  /**
   * Positive fills that together stay within the quantity all succeed on an open
   * order; the order ends FILLED exactly when they add up to the quantity.
   */
  lemma {:induction false} FillsWithinQuantitySucceed(s: OrderState, qs: seq<real>, now: int)
    requires Fillable(s.status) && AllPositive(qs) && qs != [] && s.filled + Sum(qs) <= s.quantity
    ensures FillAll(s, qs, now).Ok?
    ensures FillAll(s, qs, now).value.status == Filled <==> s.filled + Sum(qs) >= s.quantity
    decreases |qs|
  {
    var rest := qs[1..];
    SumPositive(rest);
    var t := FillStep(s, qs[0], None, now).value;
    if rest != [] {
      assert t.status == PartialFilled;
      FillsWithinQuantitySucceed(t, rest, now);
    }
  }

  // ------------------------------------------------------- derived values

  function Remaining(s: OrderState): (r: real)
    ensures r + s.filled == s.quantity
    ensures Bounded(s) ==> 0.0 <= r <= s.quantity
  {
    s.quantity - s.filled
  }

  /** `filled_percentage`: zero for a zero quantity, otherwise the filled share of 100. */
  function FilledPercentage(s: OrderState): (r: real)
    ensures s.quantity == 0.0 ==> r == 0.0
    ensures s.quantity != 0.0 ==> r / 100.0 == s.filled / s.quantity
  {
    if s.quantity == 0.0 then 0.0 else (s.filled / s.quantity) * 100.0
  }

  /** `total_value`: price times quantity in the price's currency, through the Money constructor. */
  function TotalValue(s: OrderState): (r: Result<Money>)
    ensures r.Ok? ==> r.value == Money(s.price.amount * s.quantity, s.price.currency)
    ensures ValidMoney(s.price) && s.quantity >= 0.0 ==> r.Ok?
  {
    ProductSign(s.price.amount, s.quantity);
    MakeMoney(s.price.amount * s.quantity, s.price.currency)
  }

  /** `filled_value`: price times filled quantity. */
  function FilledValue(s: OrderState): (r: Result<Money>)
    ensures r.Ok? ==> r.value == Money(s.price.amount * s.filled, s.price.currency)
    ensures ValidMoney(s.price) && s.filled >= 0.0 ==> r.Ok?
  {
    ProductSign(s.price.amount, s.filled);
    MakeMoney(s.price.amount * s.filled, s.price.currency)
  }

  /** `is_open`: the statuses a fill or a cancellation accepts. */
  predicate IsOpen(s: OrderState)
    ensures IsOpen(s) <==> Fillable(s.status)
  {
    s.status == Open || s.status == PartialFilled
  }

  /** `is_closed`: the terminal statuses, none of them open. */
  predicate IsClosed(s: OrderState)
    ensures IsClosed(s) <==> Terminal(s.status)
    ensures IsClosed(s) ==> !IsOpen(s)
  {
    s.status == Filled || s.status == Cancelled || s.status == Rejected
  }

  /** `is_open` and `is_closed` exclude each other, PENDING is neither, and closed means terminal. */
  lemma OpenClosedExclusive(s: OrderState)
    ensures !(IsOpen(s) && IsClosed(s))
    ensures s.status == Pending <==> !IsOpen(s) && !IsClosed(s)
    ensures IsClosed(s) <==> Terminal(s.status)
    ensures IsOpen(s) <==> Fillable(s.status)
  {
  }

  /** Within the bounds the percentage lies in [0, 100] and is 100 exactly when the order is fully filled. */
  lemma PercentageBounds(s: OrderState)
    ensures Bounded(s) ==> 0.0 <= FilledPercentage(s) <= 100.0
    ensures Bounded(s) && s.quantity > 0.0 ==> (FilledPercentage(s) == 100.0 <==> s.filled == s.quantity)
  {
    if Bounded(s) && s.quantity > 0.0 {
      var f := s.filled / s.quantity;
      assert f * s.quantity == s.filled;
      assert 0.0 <= f <= 1.0;
    }
  }

  /** Within the bounds, for a valid price, the filled value never exceeds the total value. */
  lemma FilledValueWithinTotal(s: OrderState)
    requires Bounded(s) && ValidMoney(s.price)
    ensures TotalValue(s).Ok? && FilledValue(s).Ok?
    ensures FilledValue(s).value.amount <= TotalValue(s).value.amount
    ensures FilledValue(s).value.currency == TotalValue(s).value.currency == s.price.currency
  {
    assert s.price.amount * s.filled <= s.price.amount * s.quantity by {
      assert s.price.amount * (s.quantity - s.filled) >= 0.0;
    }
  }

  // ----------------------------------------------------------- the class

  /** An order object; only `price`, `status`, `filled` and `updatedAt` are ever reassigned. */
  class Order {
    const orderId: string
    const userId: string
    const pair: TradingPair
    const side: Side
    const orderType: OrderType
    const quantity: real
    const createdAt: int
    var price: Money
    var status: Status
    var filled: real
    var updatedAt: int

    function State(): OrderState
      reads this
    {
      OrderState(orderId, userId, pair, side, orderType, price, quantity, status, filled, createdAt, updatedAt)
    }

    /** `Order(...)` with every attribute given. */
    constructor (s: OrderState)
      ensures State() == s
    {
      orderId, userId, pair, side, orderType := s.orderId, s.userId, s.pair, s.side, s.orderType;
      quantity, createdAt := s.quantity, s.createdAt;
      price, status, filled, updatedAt := s.price, s.status, s.filled, s.updatedAt;
    }

    method Open(now: int) returns (r: Outcome)
      modifies this
      ensures Effect(OpenStep(old(State()), now), old(State()), r, State())
    {
      if status != Status.Pending {
        return Fail(CannotOpen(status));
      }
      status := Status.Open;
      updatedAt := now;
      r := Pass;
    }

    method Fill(q: real, executionPrice: Option<Money>, now: int) returns (r: Outcome)
      modifies this
      ensures Effect(FillStep(old(State()), q, executionPrice, now), old(State()), r, State())
      ensures filled >= old(filled)
      ensures old(Bounded(State())) ==> Bounded(State())
    {
      if status != Status.Open && status != PartialFilled {
        return Fail(CannotFill(status));
      }
      if q <= 0.0 {
        return Fail(NonPositiveFill(q));
      }
      var newFilled := filled + q;
      if newFilled > quantity {
        return Fail(Overfill(q, quantity - filled));
      }
      filled := newFilled;
      if executionPrice.Some? {
        price := executionPrice.value;
      }
      if filled >= quantity {
        status := Filled;
      } else {
        status := PartialFilled;
      }
      updatedAt := now;
      r := Pass;
    }

    method Cancel(now: int) returns (r: Outcome)
      modifies this
      ensures Effect(CancelStep(old(State()), now), old(State()), r, State())
    {
      if status != Status.Open && status != PartialFilled {
        return Fail(CannotCancel(status));
      }
      status := Cancelled;
      updatedAt := now;
      r := Pass;
    }

    method Reject(reason: string, now: int) returns (r: Outcome)
      modifies this
      ensures Effect(RejectStep(old(State()), reason, now), old(State()), r, State())
    {
      if status != Status.Pending {
        return Fail(CannotReject(status));
      }
      status := Rejected;
      updatedAt := now;
      r := Pass;
    }
  }
}
