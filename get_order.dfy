/**
 * Reading one order on behalf of a user: load it, check that the user owns it
 * and answer with the flat projection extended by the derived values.
 */
module GetOrder {
  import opened TradingErrors
  import opened ValueObjects
  import opened Orders
  import opened Repository
  import opened Dto

  /** The detailed answer for a loaded order, or the error computing `total_value` raises. */
  function Detail(s: OrderState): (r: Result<OrderDetailResponse>)
    ensures r.Ok? <==> TotalValue(s).Ok?
    ensures r.Ok? ==> (r.value.order == ToResponse(s)
      && r.value.remainingQuantity + r.value.order.filledQuantity == r.value.order.quantity
      && r.value.totalValue == s.price.amount * s.quantity
      && r.value.filledPercentage == FilledPercentage(s)
      && (Bounded(s) ==> 0.0 <= r.value.filledPercentage <= 100.0)
      && (r.value.isOpen <==> r.value.order.status in {"OPEN", "PARTIAL_FILLED"})
      && (r.value.isClosed <==> r.value.order.status in {"FILLED", "CANCELLED", "REJECTED"})
      && !(r.value.isOpen && r.value.isClosed))
  {
    var total :- TotalValue(s);
    OpenClosedExclusive(s);
    PercentageBounds(s);
    Ok(OrderDetailResponse(ToResponse(s), Remaining(s), FilledPercentage(s), total.amount, IsOpen(s), IsClosed(s)))
  }

  /** `GetOrderUseCase.execute(order_id, user_id)`. */
  function Get(store: Store, orderId: string, userId: string): (r: Result<OrderDetailResponse>)
    requires Keyed(store)
    ensures orderId !in store ==> r == Err(OrderNotFound(orderId))
    ensures FindById(store, orderId).Err? ==> r == Err(FindById(store, orderId).error)
    ensures FindById(store, orderId).Ok? && store[orderId].userId != userId ==>
      r == Err(UnauthorizedOrderAccess(userId, orderId))
    ensures r.Ok? ==> (orderId in store && store[orderId].userId == userId && r.value.order.userId == userId
      && r.value.order.orderId == orderId && Detail(FindById(store, orderId).value) == r)
    ensures (FindById(store, orderId).Ok? && store[orderId].userId == userId && store[orderId].quantity >= 0.0) ==> r.Ok?
  {
    var s :- FindById(store, orderId);
    if s.userId != userId then Err(UnauthorizedOrderAccess(userId, orderId))
    else Detail(s)
  }

  /**
   * The detail of a stored order agrees with its row: every field as stored, the
   * symbol in the form that parses back to the same pair, and the percentage within
   * [0, 100] when the stored fill is within the stored quantity.
   */
  lemma DetailOfRow(row: Row)
    requires ToDomain(row).Ok? && Detail(ToDomain(row).value).Ok?
    ensures var d := Detail(ToDomain(row).value).value;
      d.order.symbol == Symbol(FromSymbol(row.symbol).value) && FromSymbol(d.order.symbol) == FromSymbol(row.symbol)
      && d.order.price == row.price && d.order.quantity == row.quantity && d.order.filledQuantity == row.filled
      && ParseStatus(d.order.status) == Some(row.status)
      && (0.0 <= row.filled <= row.quantity ==> 0.0 <= d.filledPercentage <= 100.0)
  {
    var s := ToDomain(row).value;
    assert Mirrors(row, s) && s.price.amount == row.price;
    FromSymbolIdempotent(row.symbol);
  }
}
