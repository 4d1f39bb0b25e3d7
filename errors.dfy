/**
 * The exception taxonomy of the trading domain, as one datatype with a
 * variant per exception class, the message each constructor builds, and the
 * subclass relation used by `isinstance`. Python's built-in `ValueError`,
 * raised by the value objects, and `TypeError`, raised when `Money` compares a
 * missing amount with zero, are variants too but are not domain errors.
 *
 * Messages are f-strings whose holes may hold a Decimal. How `str()` renders
 * a Decimal depends on its exponent and not only on its value ("0.50" and
 * "0.5" are equal numbers), so a message is kept as a `Text`: literal pieces
 * and numeric holes; `Render` turns it into a string given that renderer.
 */
module TradingErrors {

  datatype Option<T> = None | Some(value: T)

  datatype Piece = Lit(text: string) | Num(value: real)

  type Text = seq<Piece>

  function Str(s: string): Text {
    [Lit(s)]
  }

  /** The string a `Text` denotes once `show` renders every numeric hole. */
  function Render(t: Text, show: real -> string): string {
    if t == [] then ""
    else (match t[0] case Lit(s) => s case Num(x) => show(x)) + Render(t[1..], show)
  }

  /** Rendering distributes over the concatenation of messages. */
  lemma {:induction false} RenderConcat(a: Text, b: Text, show: real -> string)
    ensures Render(a + b, show) == Render(a, show) + Render(b, show)
  {
    if a != [] {
      assert (a + b)[0] == a[0];
      assert (a + b)[1..] == a[1..] + b;
      RenderConcat(a[1..], b, show);
    } else {
      assert a + b == b;
    }
  }

  datatype Error =
    | ValueError(message: Text)
    | TypeError(message: Text)
    | TradingDomain(message: Text)
    | OrderError(message: Text)
    | OrderNotFound(orderId: string)
    | InvalidOrderOperation(message: Text)
    | OrderValidation(message: Text)
    | InsufficientBalance(userId: string, currency: string, required: Text, available: Text)
    | BalanceLock(message: Text)
    | InvalidTradingPair(symbol: string, pairReason: Option<string>)
    | TradingPairNotActive(symbol: string)
    | InvalidPrice(price: Text, reason: Text)
    | PriceOutOfRange(price: Text, minPrice: Text, maxPrice: Text)
    | InvalidQuantity(quantity: Text, reason: Text)
    | QuantityBelowMinimum(quantity: Text, minimum: Text)
    | QuantityAboveMaximum(quantity: Text, maximum: Text)
    | UnauthorizedOrderAccess(userId: string, orderId: string)
    | KycRequired(userId: string, requiredTier: string)
    | TradeError(message: Text)
    | TradeNotFound(tradeId: string)
    | InvalidTrade(message: Text)
    | MatchingEngine(message: Text)
    | OrderMatchingFailed(message: Text)
    | OrderBookFull(symbol: string)

  /** A failure-compatible result: the value, or the error that was raised. */
  datatype Result<T> = Ok(value: T) | Err(error: Error) {
    predicate IsFailure() {
      Err?
    }

    function PropagateFailure<U>(): Result<U>
      requires Err?
    {
      Err(error)
    }

    function Extract(): T
      requires Ok?
    {
      value
    }
  }

  /** `[f(x) for x in xs]` where `f` may raise: the first failure propagates. */
  function MapResults<A, B>(f: A -> Result<B>, xs: seq<A>): (r: Result<seq<B>>)
    ensures r.Ok? <==> forall i :: 0 <= i < |xs| ==> f(xs[i]).Ok?
    ensures r.Ok? ==> |r.value| == |xs| && forall i :: 0 <= i < |xs| ==> f(xs[i]) == Ok(r.value[i])
    decreases |xs|
  {
    if xs == [] then Ok([])
    else
      match f(xs[0])
      case Err(e) => Err(e)
      case Ok(head) =>
        match MapResults(f, xs[1..])
        case Err(e) =>
          assert exists i :: 1 <= i < |xs| && f(xs[i]).Err? by {
            var k :| 0 <= k < |xs[1..]| && f(xs[1..][k]).Err?;
            assert xs[1..][k] == xs[k + 1];
          }
          Err(e)
        case Ok(tail) =>
          assert forall i :: 1 <= i < |xs| ==> xs[i] == xs[1..][i - 1];
          Ok([head] + tail)
  }

  /** The outcome of an operation that returns nothing but may raise. */
  datatype Outcome = Pass | Fail(error: Error)

  /** The reason an `InvalidQuantityException` (or a subclass) was raised with. */
  function QuantityReason(e: Error): Text
    requires e.InvalidQuantity? || e.QuantityBelowMinimum? || e.QuantityAboveMaximum?
  {
    match e
    case InvalidQuantity(_, reason) => reason
    case QuantityBelowMinimum(_, minimum) => [Lit("Quantity must be at least ")] + minimum
    case QuantityAboveMaximum(_, maximum) => [Lit("Quantity must not exceed ")] + maximum
  }

  /** `str(e)`: the message each exception constructor passes to `Exception`. */
  function Message(e: Error): (r: Text)
    ensures (e.ValueError? || e.TypeError? || e.TradingDomain? || e.OrderError? || e.InvalidOrderOperation?
             || e.OrderValidation? || e.BalanceLock? || e.TradeError? || e.InvalidTrade? || e.MatchingEngine?
             || e.OrderMatchingFailed?) ==> r == e.message
  {
    match e
    case ValueError(m) => m
    case TypeError(m) => m
    case TradingDomain(m) => m
    case OrderError(m) => m
    case OrderNotFound(id) => Str("Order not found: " + id)
    case InvalidOrderOperation(m) => m
    case OrderValidation(m) => m
    case InsufficientBalance(u, c, req, avail) =>
      [Lit("Insufficient balance for user " + u + ". Required: ")] + req
      + [Lit(" " + c + ", Available: ")] + avail + [Lit(" " + c)]
    case BalanceLock(m) => m
    case InvalidTradingPair(s, reason) =>
      Str("Invalid trading pair: " + s
          + (if reason.Some? && reason.value != "" then ". Reason: " + reason.value else ""))
    case TradingPairNotActive(s) => Str("Trading pair not active: " + s)
    case InvalidPrice(p, reason) => [Lit("Invalid price ")] + p + [Lit(": ")] + reason
    case PriceOutOfRange(p, lo, hi) =>
      [Lit("Price ")] + p + [Lit(" out of range. Allowed range: ")] + lo + [Lit(" - ")] + hi
    case InvalidQuantity(q, _) => [Lit("Invalid quantity ")] + q + [Lit(": ")] + QuantityReason(e)
    case QuantityBelowMinimum(q, _) => [Lit("Invalid quantity ")] + q + [Lit(": ")] + QuantityReason(e)
    case QuantityAboveMaximum(q, _) => [Lit("Invalid quantity ")] + q + [Lit(": ")] + QuantityReason(e)
    case UnauthorizedOrderAccess(u, o) => Str("User " + u + " not authorized to access order " + o)
    case KycRequired(u, tier) => Str("KYC verification required. User " + u + " needs tier: " + tier)
    case TradeError(m) => m
    case TradeNotFound(id) => Str("Trade not found: " + id)
    case InvalidTrade(m) => m
    case MatchingEngine(m) => m
    case OrderMatchingFailed(m) => m
    case OrderBookFull(s) => Str("Orderbook full for " + s)
  }

  /** The exception classes of the taxonomy. */
  datatype Class =
    | ValueErrorClass | TypeErrorClass | TradingDomainClass
    | OrderClass | OrderNotFoundClass | InvalidOrderOperationClass | OrderValidationClass
    | InsufficientBalanceClass | BalanceLockClass
    | InvalidTradingPairClass | TradingPairNotActiveClass
    | InvalidPriceClass | PriceOutOfRangeClass
    | InvalidQuantityClass | QuantityBelowMinimumClass | QuantityAboveMaximumClass
    | UnauthorizedOrderAccessClass | KycRequiredClass
    | TradeClass | TradeNotFoundClass | InvalidTradeClass
    | MatchingEngineClass | OrderMatchingFailedClass | OrderBookFullClass

  function ClassOf(e: Error): Class {
    match e
    case ValueError(_) => ValueErrorClass
    case TypeError(_) => TypeErrorClass
    case TradingDomain(_) => TradingDomainClass
    case OrderError(_) => OrderClass
    case OrderNotFound(_) => OrderNotFoundClass
    case InvalidOrderOperation(_) => InvalidOrderOperationClass
    case OrderValidation(_) => OrderValidationClass
    case InsufficientBalance(_, _, _, _) => InsufficientBalanceClass
    case BalanceLock(_) => BalanceLockClass
    case InvalidTradingPair(_, _) => InvalidTradingPairClass
    case TradingPairNotActive(_) => TradingPairNotActiveClass
    case InvalidPrice(_, _) => InvalidPriceClass
    case PriceOutOfRange(_, _, _) => PriceOutOfRangeClass
    case InvalidQuantity(_, _) => InvalidQuantityClass
    case QuantityBelowMinimum(_, _) => QuantityBelowMinimumClass
    case QuantityAboveMaximum(_, _) => QuantityAboveMaximumClass
    case UnauthorizedOrderAccess(_, _) => UnauthorizedOrderAccessClass
    case KycRequired(_, _) => KycRequiredClass
    case TradeError(_) => TradeClass
    case TradeNotFound(_) => TradeNotFoundClass
    case InvalidTrade(_) => InvalidTradeClass
    case MatchingEngine(_) => MatchingEngineClass
    case OrderMatchingFailed(_) => OrderMatchingFailedClass
    case OrderBookFull(_) => OrderBookFullClass
  }

  /** How far a class sits below the root of its hierarchy. */
  function Depth(c: Class): nat {
    match c
    case ValueErrorClass => 0
    case TypeErrorClass => 0
    case TradingDomainClass => 0
    case OrderNotFoundClass | InvalidOrderOperationClass | OrderValidationClass => 2
    case QuantityBelowMinimumClass | QuantityAboveMaximumClass => 2
    case TradeNotFoundClass | InvalidTradeClass => 2
    case OrderMatchingFailedClass | OrderBookFullClass => 2
    case _ => 1
  }

  /** The direct base class, as the `class X(Base)` lines declare it. */
  function Base(c: Class): (b: Option<Class>)
    ensures b.None? <==> Depth(c) == 0
    ensures b.Some? ==> Depth(b.value) + 1 == Depth(c)
  {
    match c
    case ValueErrorClass => None
    case TypeErrorClass => None
    case TradingDomainClass => None
    case OrderNotFoundClass | InvalidOrderOperationClass | OrderValidationClass => Some(OrderClass)
    case QuantityBelowMinimumClass | QuantityAboveMaximumClass => Some(InvalidQuantityClass)
    case TradeNotFoundClass | InvalidTradeClass => Some(TradeClass)
    case OrderMatchingFailedClass | OrderBookFullClass => Some(MatchingEngineClass)
    case _ => Some(TradingDomainClass)
  }

  /** `issubclass(c, d)` */
  predicate SubclassOf(c: Class, d: Class)
    ensures c == d ==> SubclassOf(c, d)
    ensures Depth(c) == 0 ==> (SubclassOf(c, d) <==> c == d)
    decreases Depth(c)
  {
    c == d || (Base(c).Some? && SubclassOf(Base(c).value, d))
  }

  /** `isinstance(e, d)` */
  predicate IsInstance(e: Error, d: Class)
    ensures d == ClassOf(e) ==> IsInstance(e, d)
    ensures Depth(ClassOf(e)) == 0 ==> (IsInstance(e, d) <==> d == ClassOf(e))
  {
    SubclassOf(ClassOf(e), d)
  }

  /** The subclass relation is transitive. */
  lemma {:induction false} SubclassTransitive(a: Class, b: Class, c: Class)
    requires SubclassOf(a, b) && SubclassOf(b, c)
    ensures SubclassOf(a, c)
    decreases Depth(a)
  {
    if a != b {
      SubclassTransitive(Base(a).value, b, c);
    }
  }

  /** The subclass relation is antisymmetric: a class lies strictly above its subclasses. */
  lemma {:induction false} SubclassDepth(a: Class, b: Class)
    requires SubclassOf(a, b)
    ensures Depth(b) <= Depth(a)
    ensures Depth(b) == Depth(a) ==> a == b
    decreases Depth(a)
  {
    if a != b {
      SubclassDepth(Base(a).value, b);
    }
  }

  predicate IsTradingDomainError(e: Error) { IsInstance(e, TradingDomainClass) }
  predicate IsOrderError(e: Error) { IsInstance(e, OrderClass) }
  predicate IsInvalidQuantityError(e: Error) { IsInstance(e, InvalidQuantityClass) }
  predicate IsTradeError(e: Error) { IsInstance(e, TradeClass) }
  predicate IsMatchingEngineError(e: Error) { IsInstance(e, MatchingEngineClass) }

  /** Every exception of the taxonomy is a `TradingDomainException`; the two built-in errors are not. */
  lemma DomainRoot(e: Error)
    ensures IsTradingDomainError(e) <==> !e.ValueError? && !e.TypeError?
  {
    var c := ClassOf(e);
    if c != ValueErrorClass && c != TypeErrorClass && c != TradingDomainClass && Base(c) != Some(TradingDomainClass) {
      assert Base(Base(c).value) == Some(TradingDomainClass);
    }
  }

  /** Not-found, invalid-operation and validation failures are `OrderException`s, and nothing else is. */
  lemma OrderFamily(e: Error)
    ensures IsOrderError(e) <==>
      e.OrderError? || e.OrderNotFound? || e.InvalidOrderOperation? || e.OrderValidation?
  {
    var c := ClassOf(e);
    if Depth(c) == 2 {
      assert Base(Base(c).value) == Some(TradingDomainClass);
    }
  }

  /** Below-minimum and above-maximum failures are `InvalidQuantityException`s, and nothing else is. */
  lemma QuantityFamily(e: Error)
    ensures IsInvalidQuantityError(e) <==>
      e.InvalidQuantity? || e.QuantityBelowMinimum? || e.QuantityAboveMaximum?
  {
    var c := ClassOf(e);
    if Depth(c) == 2 {
      assert Base(Base(c).value) == Some(TradingDomainClass);
    }
  }

  /** The trade family. */
  lemma TradeFamily(e: Error)
    ensures IsTradeError(e) <==> e.TradeError? || e.TradeNotFound? || e.InvalidTrade?
  {
    var c := ClassOf(e);
    if Depth(c) == 2 {
      assert Base(Base(c).value) == Some(TradingDomainClass);
    }
  }

  /** The matching-engine family. */
  lemma MatchingFamily(e: Error)
    ensures IsMatchingEngineError(e) <==>
      e.MatchingEngine? || e.OrderMatchingFailed? || e.OrderBookFull?
  {
    var c := ClassOf(e);
    if Depth(c) == 2 {
      assert Base(Base(c).value) == Some(TradingDomainClass);
    }
  }

  /** An `InvalidQuantityException` of any subclass reads "Invalid quantity <q>: <reason>". */
  lemma QuantityMessages(e: Error)
    requires IsInvalidQuantityError(e)
    ensures Message(e) == [Lit("Invalid quantity ")] + e.quantity + [Lit(": ")] + QuantityReason(e)
  {
    QuantityFamily(e);
  }

  /** A literal piece renders as its own text, whatever the renderer. */
  lemma RenderStr(text: string, show: real -> string)
    ensures Render(Str(text), show) == text
  {
    assert Str(text)[1..] == [];
  }

  /**
   * Rendered, an `InvalidQuantityException` of any subclass reads "Invalid quantity ",
   * the rendered quantity, ": " and the rendered reason.
   */
  lemma QuantityMessageRendered(e: Error, show: real -> string)
    requires e.InvalidQuantity? || e.QuantityBelowMinimum? || e.QuantityAboveMaximum?
    ensures Render(Message(e), show)
      == "Invalid quantity " + Render(e.quantity, show) + ": " + Render(QuantityReason(e), show)
  {
    QuantityFamily(e);
    QuantityMessages(e);
    var prefix, q, sep, reason := Str("Invalid quantity "), e.quantity, Str(": "), QuantityReason(e);
    assert Message(e) == prefix + q + sep + reason;
    RenderConcat(prefix + q + sep, reason, show);
    RenderConcat(prefix + q, sep, show);
    RenderConcat(prefix, q, show);
    RenderStr("Invalid quantity ", show);
    RenderStr(": ", show);
  }

  /** The message of an `OrderNotFoundException` determines the id it carries. */
  lemma NotFoundMessageInjective(a: string, b: string)
    requires Message(OrderNotFound(a)) == Message(OrderNotFound(b))
    ensures a == b
  {
    var p := "Order not found: ";
    assert (p + a)[|p|..] == a;
    assert (p + b)[|p|..] == b;
  }

  /** The reason of an `InvalidTradingPairException` shows only when one is given. */
  lemma TradingPairMessage(symbol: string, reason: Option<string>)
    ensures reason.None? || reason == Some("") ==>
      Message(InvalidTradingPair(symbol, reason)) == Str("Invalid trading pair: " + symbol)
    ensures reason.Some? && reason.value != "" ==>
      Message(InvalidTradingPair(symbol, reason))
        == Str("Invalid trading pair: " + symbol + ". Reason: " + reason.value)
  {
    var prefix := "Invalid trading pair: " + symbol;
    assert prefix + "" == prefix;
    if reason.Some? {
      assert prefix + (". Reason: " + reason.value) == prefix + ". Reason: " + reason.value;
    }
  }
}
