/**
 * Placing an order: build a LIMIT or MARKET order from a validated request,
 * open it, save it and answer with its flat projection.
 */
module PlaceOrder {
  import opened TradingErrors
  import opened ValueObjects
  import opened Orders
  import opened Repository
  import opened Dto

  /**
   * The order `place_limit_order` or `place_market_order` builds from the request,
   * before `open()`. A LIMIT request whose price was left out passes the
   * validators as written and reaches `Money(None, quote)`, which raises `TypeError`
   * once the symbol has parsed.
   */
  function Built(req: PlaceOrderRequest, hex12: string, now: int): (r: Result<OrderState>)
    requires AcceptedAsWritten(req)
    ensures r.Ok? <==> (FromSymbol(req.symbol).Ok? && QuantityAcceptable(req.quantity)
      && (req.orderType == "LIMIT" ==> Price(req).Some? && MIN_PRICE <= Price(req).value <= MAX_PRICE))
    ensures FromSymbol(req.symbol).Err? ==> r == Err(FromSymbol(req.symbol).error)
    ensures FromSymbol(req.symbol).Ok? && req.orderType == "LIMIT" && Price(req).None? ==>
      r == Err(TypeError(Str(NONE_COMPARISON_MESSAGE)))
    ensures r.Err? ==>
      if req.orderType == "LIMIT" && Price(req).None? then r.error.ValueError? || r.error.TypeError?
      else (r.error.ValueError? || r.error.InvalidPrice? || r.error.InvalidQuantity? || r.error.QuantityBelowMinimum?)
    ensures r.Ok? ==> (IsFresh(r.value, now) && r.value.orderId == OrderId(hex12) && r.value.userId == req.userId
      && r.value.pair == FromSymbol(req.symbol).value
      && Some(r.value.side) == ParseSide(req.side) && Some(r.value.orderType) == ParseType(req.orderType)
      && r.value.price == Money(if req.orderType == "LIMIT" then Price(req).value else 0.0, r.value.pair.quote)
      && r.value.quantity == req.quantity)
  {
    AcceptedParses(req);
    var side := ParseSide(req.side).value;
    if req.orderType != "LIMIT" then PlaceMarketOrder(hex12, req.userId, req.symbol, side, req.quantity, now)
    else if Price(req).None? then WithoutPrice(req.symbol)
    else PlaceLimitOrder(hex12, req.userId, req.symbol, side, Price(req).value, req.quantity, now)
  }

  /** `place_limit_order` handed `None` for the price: the symbol is parsed, then `Money(None, quote)` raises. */
  function WithoutPrice(symbol: string): (r: Result<OrderState>)
    ensures r.Err? && (r.error.ValueError? || r.error.TypeError?)
    ensures FromSymbol(symbol).Err? ==> r == Err(FromSymbol(symbol).error)
    ensures FromSymbol(symbol).Ok? ==> r == Err(TypeError(Str(NONE_COMPARISON_MESSAGE)))
  {
    match FromSymbol(symbol)
    case Err(e) => Err(e)
    case Ok(pair) => Err(MakeMoneyOf(None, pair.quote).error)
  }

  /**
   * The order the use case saves and answers with: built at `now` and opened at
   * `openedAt` (two separate readings of the clock), or the error the factory raised.
   */
  function Placed(req: PlaceOrderRequest, hex12: string, now: int, openedAt: int): (r: Result<OrderState>)
    requires AcceptedAsWritten(req)
    ensures r.Ok? <==> (FromSymbol(req.symbol).Ok? && QuantityAcceptable(req.quantity)
      && (req.orderType == "LIMIT" ==> Price(req).Some? && MIN_PRICE <= Price(req).value <= MAX_PRICE))
    ensures FromSymbol(req.symbol).Err? ==> r == Err(FromSymbol(req.symbol).error)
    ensures FromSymbol(req.symbol).Ok? && req.orderType == "LIMIT" && Price(req).None? ==>
      r == Err(TypeError(Str(NONE_COMPARISON_MESSAGE)))
    ensures r.Err? ==>
      if req.orderType == "LIMIT" && Price(req).None? then r.error.ValueError? || r.error.TypeError?
      else (r.error.ValueError? || r.error.InvalidPrice? || r.error.InvalidQuantity? || r.error.QuantityBelowMinimum?)
    ensures r.Ok? ==> (r.value.status == Open && r.value.filled == 0.0
      && r.value.orderId == OrderId(hex12) && r.value.userId == req.userId
      && r.value.pair == FromSymbol(req.symbol).value && RoundTrips(r.value.pair)
      && Some(r.value.side) == ParseSide(req.side) && Some(r.value.orderType) == ParseType(req.orderType)
      && r.value.price == Money(if req.orderType == "LIMIT" then Price(req).value else 0.0, r.value.pair.quote)
      && r.value.quantity == req.quantity && r.value.createdAt == now && r.value.updatedAt == openedAt)
  {
    AcceptedParses(req);
    var created :- Built(req, hex12, now);
    OpenStep(created, openedAt)
  }

  /** Under the corrected validation the `TypeError` path is never taken. */
  lemma AcceptedNeverTypeError(req: PlaceOrderRequest, hex12: string, now: int, openedAt: int)
    requires Accepted(req)
    ensures AcceptedAsWritten(req)
    ensures Placed(req, hex12, now, openedAt).Err? ==> !Placed(req, hex12, now, openedAt).error.TypeError?
  {
  }

  /** The LIMIT request without a price that the validators let through raises `TypeError` when placed. */
  lemma OmittedLimitPriceRaises(hex12: string, now: int, openedAt: int)
    ensures var req := PlaceOrderRequest("u1", "BTC/USDT", "BUY", "LIMIT", Omitted, 1.0);
      AcceptedAsWritten(req) && Placed(req, hex12, now, openedAt) == Err(TypeError(Str(NONE_COMPARISON_MESSAGE)))
  {
    var req := PlaceOrderRequest("u1", "BTC/USDT", "BUY", "LIMIT", Omitted, 1.0);
    BtcUsdtParses();
    assert Price(req).None?;
  }

  /** "BTC/USDT" reads as the pair it prints from. */
  lemma BtcUsdtParses()
    ensures FromSymbol("BTC/USDT") == Ok(TradingPair("BTC", "USDT"))
  {
    var p := TradingPair("BTC", "USDT");
    BtcUsdtRoundTrips(p);
    SymbolRoundTrip(p);
    BtcUsdtSymbol(p);
  }

  lemma BtcUsdtRoundTrips(p: TradingPair)
    requires p == TradingPair("BTC", "USDT")
    ensures RoundTrips(p)
  {
    CapitalCode(p.base);
    CapitalCode(p.quote);
  }

  lemma BtcUsdtSymbol(p: TradingPair)
    requires p == TradingPair("BTC", "USDT")
    ensures Symbol(p) == "BTC/USDT"
  {
  }

  /** A placed order is saved as it is answered: the stored row reloads to the answer. */
  lemma PlacedIsStored(req: PlaceOrderRequest, hex12: string, now: int, openedAt: int, store: Store)
    requires AcceptedAsWritten(req) && Placed(req, hex12, now, openedAt).Ok?
    ensures var s := Placed(req, hex12, now, openedAt).value;
      FindById(Upsert(store, s), s.orderId) == Ok(s)
      && ToResponse(FindById(Upsert(store, s), s.orderId).value) == ToResponse(s)
      && ToResponse(s).status == "OPEN" && ToResponse(s).filledQuantity == 0.0
  {
    var s := Placed(req, hex12, now, openedAt).value;
    SaveThenFind(store, s, s.orderId);
    assert Reloaded(s) == s;
  }

  /** `PlaceOrderUseCase` over the repository of its session. */
  class PlaceOrderUseCase {
    const orderRepo: OrderRepository

    constructor (repo: OrderRepository)
      ensures orderRepo == repo
    {
      orderRepo := repo;
    }

    /**
     * `execute(request)`: on success the order is stored, OPEN, and answered;
     * on failure nothing is stored and the factory's error is raised.
     */
    method Execute(req: PlaceOrderRequest, hex12: string, now: int, openedAt: int) returns (r: Result<OrderResponse>)
      requires orderRepo.Valid() && AcceptedAsWritten(req)
      modifies orderRepo
      ensures orderRepo.Valid()
      ensures var p := Placed(req, hex12, now, openedAt);
        match p
        case Ok(s) => r == Ok(ToResponse(s)) && orderRepo.rows == Upsert(old(orderRepo.rows), s)
        case Err(e) => r == Err(e) && orderRepo.rows == old(orderRepo.rows)
    {
      var side := ParseSide(req.side).value;
      var created: Result<OrderState>;
      if req.orderType == "LIMIT" {
        if Price(req).None? {
          var pair := FromSymbol(req.symbol);
          if pair.Err? {
            return Err(pair.error);
          }
          return Err(MakeMoneyOf(None, pair.value.quote).error);
        }
        created := PlaceLimitOrder(hex12, req.userId, req.symbol, side, Price(req).value, req.quantity, now);
      } else {
        created := PlaceMarketOrder(hex12, req.userId, req.symbol, side, req.quantity, now);
      }
      if created.Err? {
        return Err(created.error);
      }
      var order := new Order(created.value);
      // a freshly built order is PENDING, so `open()` does not raise here
      var outcome := order.Open(openedAt);
      assert outcome == Pass;
      orderRepo.Save(order);
      r := Ok(ToResponse(order.State()));
    }
  }
}
