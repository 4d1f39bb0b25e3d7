/**
 * Cancelling an order on behalf of a user: load it, check that the user owns
 * it, cancel it, save it and answer with its flat projection.
 */
module CancelOrder {
  import opened TradingErrors
  import opened ValueObjects
  import opened Orders
  import opened Repository
  import opened Dto

  /** The cancelled order the use case saves, or the error it raises, in the order the checks run. */
  function Cancellation(store: Store, req: CancelOrderRequest, now: int): (r: Result<OrderState>)
    requires Keyed(store)
    ensures req.orderId !in store ==> r == Err(OrderNotFound(req.orderId))
    ensures FindById(store, req.orderId).Err? ==> r == FindById(store, req.orderId)
    ensures r.Ok? <==> (FindById(store, req.orderId).Ok? && store[req.orderId].userId == req.userId
      && Fillable(store[req.orderId].status))
    ensures FindById(store, req.orderId).Ok? && store[req.orderId].userId != req.userId ==>
      r == Err(UnauthorizedOrderAccess(req.userId, req.orderId))
    ensures (FindById(store, req.orderId).Ok? && store[req.orderId].userId == req.userId
      && !Fillable(store[req.orderId].status)) ==> r == Err(CannotCancel(store[req.orderId].status))
    ensures r.Ok? ==> (r.value.status == Cancelled && r.value.updatedAt == now && r.value.orderId == req.orderId
      && r.value == FindById(store, req.orderId).value.(status := Cancelled, updatedAt := now))
  {
    var s :- FindById(store, req.orderId);
    if s.userId != req.userId then Err(UnauthorizedOrderAccess(req.userId, req.orderId))
    else CancelStep(s, now)
  }

  /**
   * A successful cancellation rewrites one row: its status becomes CANCELLED, its
   * `updated_at` the time of the cancellation and its symbol the normalised one;
   * every other row is left as it was, and the row reads back as the answer.
   */
  lemma CancellationRow(store: Store, req: CancelOrderRequest, now: int)
    requires Keyed(store) && Cancellation(store, req, now).Ok?
    ensures var after := Upsert(store, Cancellation(store, req, now).value);
      after.Keys == store.Keys
      && after[req.orderId] == store[req.orderId].(
           symbol := Symbol(FromSymbol(store[req.orderId].symbol).value), status := Cancelled, updatedAt := now)
      && (forall id :: id in store && id != req.orderId ==> after[id] == store[id])
      && FindById(after, req.orderId) == Cancellation(store, req, now)
  {
    var s := Cancellation(store, req, now).value;
    var loaded := FindById(store, req.orderId).value;
    assert Mirrors(store[req.orderId], loaded);
    SaveThenFind(store, s, req.orderId);
    assert Reloaded(s) == s;
  }

  /** Cancellation is final: once saved, a second cancellation raises `InvalidOrderOperationException`. */
  lemma CancelTwiceFails(store: Store, req: CancelOrderRequest, now: int, later: int)
    requires Keyed(store) && Cancellation(store, req, now).Ok?
    ensures var after := Upsert(store, Cancellation(store, req, now).value);
      Keyed(after) && Cancellation(after, req, later) == Err(CannotCancel(Cancelled))
      && Cancellation(after, req, later).error.InvalidOrderOperation?
  {
    CancellationRow(store, req, now);
  }

  /** `CancelOrderUseCase` over the repository of its session. */
  class CancelOrderUseCase {
    const orderRepo: OrderRepository

    constructor (repo: OrderRepository)
      ensures orderRepo == repo
    {
      orderRepo := repo;
    }

    /** `execute(request)`: on failure nothing is saved and the error is raised. */
    method Execute(req: CancelOrderRequest, now: int) returns (r: Result<OrderResponse>)
      requires orderRepo.Valid()
      modifies orderRepo
      ensures orderRepo.Valid()
      ensures match Cancellation(old(orderRepo.rows), req, now)
        case Ok(s) => r == Ok(ToResponse(s)) && orderRepo.rows == Upsert(old(orderRepo.rows), s)
        case Err(e) => r == Err(e) && orderRepo.rows == old(orderRepo.rows)
    {
      var found := FindById(orderRepo.rows, req.orderId);
      if found.Err? {
        return Err(found.error);
      }
      if found.value.userId != req.userId {
        return Err(UnauthorizedOrderAccess(req.userId, req.orderId));
      }
      var order := new Order(found.value);
      var outcome := order.Cancel(now);
      if outcome.Fail? {
        return Err(outcome.error);
      }
      orderRepo.Save(order);
      r := Ok(ToResponse(order.State()));
    }
  }
}
