/**
 * The request and response records of the order use cases. `PlaceOrderRequest`
 * carries three field validators and a `gt=0` constraint; the responses are flat projections of an
 * order in which every enumeration appears as its string tag.
 */
module Dto {
  import opened TradingErrors
  import opened ValueObjects
  import opened Orders

  /** How `price` arrived in the request body: left out, or given (possibly as null). */
  datatype PriceField = Omitted | Given(value: Option<real>)

  datatype PlaceOrderRequest = PlaceOrderRequest(
    userId: string,
    symbol: string,
    side: string,
    orderType: string,
    price: PriceField,
    quantity: real)

  datatype CancelOrderRequest = CancelOrderRequest(orderId: string, userId: string)

  /** The `price` attribute of a built request: the default `None` when it was left out. */
  function Price(r: PlaceOrderRequest): Option<real> {
    match r.price
    case Omitted => None
    case Given(p) => p
  }

  /** One entry of the validation error list: the field and the validator's message. */
  datatype FieldError = FieldError(field: string, message: string)

  const SIDE_MESSAGE := "side must be BUY or SELL"
  const TYPE_MESSAGE := "order_type must be LIMIT or MARKET"
  const PRICE_MESSAGE := "price is required and must be > 0 for LIMIT order"
  /** The message of the `gt=0` constraint on `quantity`. */
  const QUANTITY_MESSAGE := "Input should be greater than 0"

  /** `validate_side` */
  function SideErrors(v: string): (errs: seq<FieldError>)
    ensures errs == [] <==> ParseSide(v).Some?
  {
    if v == "BUY" || v == "SELL" then [] else [FieldError("side", SIDE_MESSAGE)]
  }

  /** `validate_order_type`: STOP_LOSS, although an order type, is refused here. */
  function TypeErrors(v: string): (errs: seq<FieldError>)
    ensures errs == [] <==> ParseType(v).Some? && ParseType(v).value != StopLoss
  {
    if v == "LIMIT" || v == "MARKET" then [] else [FieldError("order_type", TYPE_MESSAGE)]
  }

  /**
   * `validate_price`, given the already validated `order_type` (absent from
   * `info.data` when its own validator failed): a LIMIT order needs a positive price.
   */
  function PriceErrors(orderType: string, price: Option<real>): (errs: seq<FieldError>)
    ensures errs == [] <==> orderType != "LIMIT" || (price.Some? && price.value > 0.0)
  {
    if orderType == "LIMIT" && (price.None? || price.value <= 0.0) then [FieldError("price", PRICE_MESSAGE)] else []
  }

  /** `quantity: Decimal = Field(gt=0)` */
  function QuantityErrors(q: real): (errs: seq<FieldError>)
    ensures errs == [] <==> q > 0.0
  {
    if q > 0.0 then [] else [FieldError("quantity", QUANTITY_MESSAGE)]
  }

  /** What a request that passes the validators as written satisfies: a stated price must be positive. */
  predicate AcceptedAsWritten(r: PlaceOrderRequest) {
    (r.side == "BUY" || r.side == "SELL")
    && (r.orderType == "LIMIT" || r.orderType == "MARKET")
    && (r.orderType == "LIMIT" && r.price.Given? ==> Price(r).Some? && Price(r).value > 0.0)
    && r.quantity > 0.0
  }

  /** What a request that passes validation satisfies once a LIMIT order must carry a price. */
  predicate Accepted(r: PlaceOrderRequest) {
    (r.side == "BUY" || r.side == "SELL")
    && (r.orderType == "LIMIT" || r.orderType == "MARKET")
    && (r.orderType == "LIMIT" ==> Price(r).Some? && Price(r).value > 0.0)
    && r.quantity > 0.0
  }

  /**
   * The errors pydantic collects, field by field in declaration order, as the
   * validators are written: a field validator does not run on a default value,
   * so an omitted `price` is never checked.
   */
  function RequestErrorsAsWritten(r: PlaceOrderRequest): (errs: seq<FieldError>)
    ensures errs == [] <==> AcceptedAsWritten(r)
    ensures forall e :: e in errs ==> e.field in {"side", "order_type", "price", "quantity"}
  {
    SideErrors(r.side) + TypeErrors(r.orderType)
    + (if r.price.Given? then PriceErrors(r.orderType, r.price.value) else [])
    + QuantityErrors(r.quantity)
  }

  /** The errors once `validate_price` also runs on the default, as its message demands. */
  function RequestErrors(r: PlaceOrderRequest): (errs: seq<FieldError>)
    ensures errs == [] <==> Accepted(r)
    ensures forall e :: e in errs ==> e.field in {"side", "order_type", "price", "quantity"}
  {
    SideErrors(r.side) + TypeErrors(r.orderType) + PriceErrors(r.orderType, Price(r)) + QuantityErrors(r.quantity)
  }

  /**
   * The corrected validation refuses everything the written one does, and more
   * only for a LIMIT request whose price was left out.
   */
  lemma RequestValidation(r: PlaceOrderRequest)
    ensures RequestErrors(r) == [] ==> RequestErrorsAsWritten(r) == []
    ensures (RequestErrorsAsWritten(r) == [] && RequestErrors(r) != []) <==>
      (AcceptedAsWritten(r) && r.orderType == "LIMIT" && r.price.Omitted?)
    ensures RequestErrorsAsWritten(r) == [] && RequestErrors(r) != [] ==>
      RequestErrors(r) == [FieldError("price", PRICE_MESSAGE)]
  {
  }

  /**
   * A LIMIT request with no `price` passes the validators as written, so
   * `place_limit_order` later receives `None` for the price; with the check
   * applied to the default the request is refused.
   */
  lemma OmittedLimitPriceSlipsThrough()
    ensures var r := PlaceOrderRequest("u1", "BTC/USDT", "BUY", "LIMIT", Omitted, 1.0);
      RequestErrorsAsWritten(r) == [] && Price(r).None?
      && RequestErrors(r) == [FieldError("price", PRICE_MESSAGE)]
  {
  }

  /** A request that passes the validators as written names a side and a type the enumerations know. */
  lemma AcceptedParses(r: PlaceOrderRequest)
    requires AcceptedAsWritten(r)
    ensures ParseSide(r.side).Some? && ParseType(r.orderType).Some?
    ensures ParseType(r.orderType).value == Limit <==> r.orderType == "LIMIT"
    ensures ParseType(r.orderType).value != StopLoss
  {
  }

  // ------------------------------------------------------------ responses

  datatype OrderResponse = OrderResponse(
    orderId: string,
    userId: string,
    symbol: string,
    side: string,
    orderType: string,
    price: real,
    quantity: real,
    filledQuantity: real,
    status: string,
    createdAt: int,
    updatedAt: int)

  /** `OrderDetailResponse` extends the flat projection with the derived values. */
  datatype OrderDetailResponse = OrderDetailResponse(
    order: OrderResponse,
    remainingQuantity: real,
    filledPercentage: real,
    totalValue: real,
    isOpen: bool,
    isClosed: bool)

  datatype OrderListResponse = OrderListResponse(total: int, orders: seq<OrderResponse>)

  /**
   * The flat projection every use case returns: the pair by its symbol, the
   * price by its amount and each enumeration by its tag.
   */
  function ToResponse(s: OrderState): (r: OrderResponse)
    ensures ParseSide(r.side) == Some(s.side)
    ensures ParseType(r.orderType) == Some(s.orderType)
    ensures ParseStatus(r.status) == Some(s.status)
    ensures r.orderId == s.orderId && r.userId == s.userId && r.symbol == Symbol(s.pair)
    ensures r.price == s.price.amount && r.quantity == s.quantity && r.filledQuantity == s.filled
    ensures r.createdAt == s.createdAt && r.updatedAt == s.updatedAt
  {
    TagsRoundTrip(s.side, s.orderType, s.status);
    OrderResponse(s.orderId, s.userId, Symbol(s.pair), SideTag(s.side), TypeTag(s.orderType), s.price.amount,
                  s.quantity, s.filled, StatusTag(s.status), s.createdAt, s.updatedAt)
  }

  /** The projection loses only the price currency: two orders with the same projection differ in nothing else. */
  lemma ResponseDeterminesOrder(a: OrderState, b: OrderState)
    requires RoundTrips(a.pair) && RoundTrips(b.pair)
    requires ToResponse(a) == ToResponse(b)
    ensures a == b.(price := Money(b.price.amount, a.price.currency))
  {
    SymbolRoundTrip(a.pair);
    SymbolRoundTrip(b.pair);
    assert ParseSide(ToResponse(a).side) == Some(a.side);
    assert ParseType(ToResponse(a).orderType) == Some(a.orderType);
    assert ParseStatus(ToResponse(a).status) == Some(a.status);
  }
}
