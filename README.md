# Trading-Context order core in Dafny

A model of the order-management core of the Trading-Context service. The
service places, cancels, reads and lists spot-exchange orders for
authenticated users. The model covers these parts:

- **Value objects** (`value_objects.dfy`, module `ValueObjects`):
  - the side, type and status enumerations and their string tags;
  - `Money`, a non-negative amount in a currency;
  - `TradingPair`, with its `symbol` and `from_symbol`.
- **Exception taxonomy** (`errors.dfy`, module `TradingErrors`):
  - one `Error` variant per exception class, plus Python's `ValueError` and
    `TypeError`;
  - the message each constructor builds, with Decimal holes left as numbers;
  - the subclass relation behind `isinstance`;
  - `Result`/`Outcome` for code that raises.
- **Order aggregate** (`order.dfy`, module `Orders`):
  - validation, the three factories and the derived values;
  - the `Order` class, whose `open`, `fill`, `cancel` and `reject` methods update
    it in place. Each method is proved against a pure step function.
- **Repository** (`repository.dfy`, module `Repository`):
  - the `orders` table as a map from `order_id` to row;
  - row conversion in both directions, with its round trip;
  - `save` and `delete` as methods of `OrderRepository`;
  - the five queries as functions of the table. Each list query returns exactly
    the matching orders, each once, newest first.
- **Application layer**:
  - request validation and the response records (`dto.dfy`);
  - the four use cases (`place_order.dfy`, `cancel_order.dfy`, `get_order.dfy`,
    `list_orders.dfy`).

Modelling choices:

- `Decimal` is `real`.
- Timestamps are `int`, supplied by the caller.
- The twelve hex digits of a fresh UUID are a parameter.
- Python's `str.strip`, `str.upper` and `str.split` are modelled over ASCII in
  `pystr.dfy` (module `PyStr`).

## Model

| member | source | states |
|---|---|---|
| TradingErrors.MapResults | trading/infrastructure/repository.py:37 | Converting a list of rows where each conversion may raise succeeds exactly when every row converts, and then gives one result per row, in order. |
| TradingErrors.Message | trading/domain/exceptions.py:1-137 | The message each exception's constructor passes on; an exception built from a message keeps it verbatim. |
| TradingErrors.SubclassOf | trading/domain/exceptions.py:1-137 | `issubclass` along the declared bases: every class is its own subclass, and a root class (`TradingDomainException`, `ValueError`, `TypeError`) is a subclass of nothing else. |
| TradingErrors.IsInstance | trading/domain/exceptions.py:1-137 | `isinstance`: an exception is an instance of its own class, and an exception of a root class of nothing else. |
| TradingErrors.SubclassTransitive | trading/domain/exceptions.py:1-137 | `issubclass` over the declared bases is transitive. |
| TradingErrors.SubclassDepth | trading/domain/exceptions.py:1-137 | A superclass sits strictly higher than each of its proper subclasses, so the relation is antisymmetric. |
| TradingErrors.DomainRoot | trading/domain/exceptions.py:1-137 | Every exception of the taxonomy is a `TradingDomainException`; the built-in `ValueError` and `TypeError` are not. |
| TradingErrors.OrderFamily | trading/domain/exceptions.py:5-21 | The `OrderException` instances are exactly the order, not-found, invalid-operation and validation errors. |
| TradingErrors.QuantityFamily | trading/domain/exceptions.py:71-90 | The `InvalidQuantityException` instances are exactly the invalid, below-minimum and above-maximum quantity errors. |
| TradingErrors.TradeFamily | trading/domain/exceptions.py:112-123 | The `TradeException` instances are exactly the trade, trade-not-found and invalid-trade errors. |
| TradingErrors.MatchingFamily | trading/domain/exceptions.py:126-137 | The `MatchingEngineException` instances are exactly the matching-engine, matching-failed and book-full errors. |
| TradingErrors.QuantityMessages | trading/domain/exceptions.py:71-90 | Every quantity error, whatever its subclass, reads "Invalid quantity q: reason". |
| TradingErrors.QuantityMessageRendered | trading/domain/exceptions.py:71-90 | Rendered with any Decimal renderer, a quantity error reads "Invalid quantity ", the rendered quantity, ": " and the rendered reason. |
| TradingErrors.NotFoundMessageInjective | trading/domain/exceptions.py:9-12 | Two not-found messages are equal only for the same order id. |
| TradingErrors.TradingPairMessage | trading/domain/exceptions.py:39-45 | The ". Reason: …" suffix appears exactly when a non-empty reason is given. |
| ValueObjects.ParseSide | trading/domain/value_objects.py:6-8 | Looking up a side by tag succeeds exactly for "BUY" and "SELL". |
| ValueObjects.ParseType | trading/domain/value_objects.py:11-14 | Looking up a type by tag succeeds exactly for the three type tags. |
| ValueObjects.ParseStatus | trading/domain/value_objects.py:17-23 | Looking up a status by tag succeeds exactly for the six status tags, each giving the member with that tag. |
| ValueObjects.TagsRoundTrip | trading/domain/value_objects.py:6-23 | Each enumeration member's tag looks up that same member. |
| ValueObjects.SideTag | trading/domain/value_objects.py:6-8 | The side's value is "BUY" or "SELL", and "BUY" exactly for BUY. |
| ValueObjects.TypeTag | trading/domain/value_objects.py:11-14 | The type's value is one of the three type tags, "LIMIT" exactly for LIMIT and "MARKET" exactly for MARKET. |
| ValueObjects.StatusTag | trading/domain/value_objects.py:17-23 | The status's value is one of the six status tags. |
| ValueObjects.MakeMoney | trading/domain/value_objects.py:31-36 | Construction succeeds exactly for a non-negative amount and a non-blank currency. The negative-amount check runs first. |
| ValueObjects.MakeMoneyOf | trading/domain/value_objects.py:31-33 | With `None` for the amount the first check, `None < 0`, raises `TypeError`; with an amount it is `MakeMoney`. |
| ValueObjects.Add | trading/domain/value_objects.py:41-46 | Adding fails on different currencies and otherwise sums the amounts in the shared currency. |
| ValueObjects.Subtract | trading/domain/value_objects.py:48-53 | Subtracting fails on different currencies or a negative difference, and otherwise takes the difference. |
| ValueObjects.Multiply | trading/domain/value_objects.py:55-58 | For valid money, multiplying succeeds exactly when the amount is zero or the factor is non-negative. The product keeps the currency. |
| ValueObjects.IsGreaterThan | trading/domain/value_objects.py:60-63 | Comparing fails on different currencies and otherwise compares the amounts. |
| ValueObjects.IsZero | trading/domain/value_objects.py:65-66 | For valid money, zero is exactly the amount that adding to itself leaves unchanged. |
| ValueObjects.AddThenSubtract | trading/domain/value_objects.py:41-53 | Subtracting what was added gives back the original money. |
| ValueObjects.ZeroIsNeutral | trading/domain/value_objects.py:41-66 | Adding zero of the same currency changes nothing. |
| ValueObjects.GreaterThanIsStrict | trading/domain/value_objects.py:60-63 | The comparison is irreflexive and asymmetric. |
| ValueObjects.MakePair | trading/domain/value_objects.py:80-88 | Construction fails exactly on a blank base or quote, in that order, and otherwise upper-cases both codes. |
| ValueObjects.Symbol | trading/domain/value_objects.py:90-92 | The symbol is the base code, '/', then the quote code. |
| ValueObjects.FromSymbol | trading/domain/value_objects.py:94-108 | Parsing fails with `ValueError` when the symbol has no separator. Any pair it returns prints to a symbol that parses back to it. |
| ValueObjects.FromParts | trading/domain/value_objects.py:105-108 | Anything but exactly two parts is refused. Two parts are stripped and passed to the constructor. |
| ValueObjects.MakePairRoundTrips | trading/domain/value_objects.py:80-92 | A pair built from trimmed codes without '/' prints to a symbol that parses back. |
| ValueObjects.SymbolRoundTrip | trading/domain/value_objects.py:90-108 | `from_symbol(p.symbol) == p` for every such pair. |
| ValueObjects.FromSymbolIdempotent | trading/domain/value_objects.py:94-108 | Parsing normalises: printing a parsed pair and parsing again gives the same result. |
| ValueObjects.CapitalCode | trading/domain/value_objects.py:80-88 | A code of capital letters passes through strip and upper unchanged. |
| ValueObjects.SlashInCodeBreaksRoundTrip | trading/domain/value_objects.py:80-108 | "A/B" is accepted as a base code, but the symbol of that pair no longer parses. |
| ValueObjects.DashSymbol | trading/domain/value_objects.py:98-108 | "BASE-QUOTE" parses to the same pair as "BASE/QUOTE". |
| Orders.ValidatePrice | trading/domain/order.py:227-253 | MARKET always passes. Any other type needs a price in [0.01, 1e9] in the quote currency, and each failure raises its own exception and message. |
| Orders.ValidateQuantity | trading/domain/order.py:255-272 | The quantity must lie in [1e-8, 1e6]. The three failures raise their own exceptions, and an oversized quantity raises plain `InvalidQuantity`. |
| Orders.Validate | trading/domain/order.py:223-225 | Passes exactly when both checks pass. A price failure is raised first; once the price passes, the quantity check's own error is raised. |
| Orders.Checked | trading/domain/order.py:223-225 | A failed check raises its error, and a passing one hands back the order unchanged. |
| Orders.OrderId | trading/domain/order.py:59 | The id is "ORD-" followed by the upper-cased hex digits. |
| Orders.Initial | trading/domain/order.py:22-46 | Without status, fill or timestamps the new order is PENDING, unfilled, stamped now at both times, and holds the given fields. |
| Orders.Create | trading/domain/order.py:48-79 | LIMIT validates price and quantity, MARKET only the quantity, and STOP_LOSS nothing. A returned order is PENDING, unfilled and stamped with the time of its creation. |
| Orders.PlaceLimitOrder | trading/domain/order.py:81-106 | Succeeds exactly when the symbol parses and the price and quantity are in range. The price is then in the quote currency. A negative price fails in `Money` before validation. Failures are `ValueError`, a price error or a quantity error. |
| Orders.PlaceMarketOrder | trading/domain/order.py:108-132 | Succeeds exactly when the symbol parses and the quantity is in range. The price is zero in the quote currency. Failures are `ValueError` or a quantity error. |
| Orders.OpenStep | trading/domain/order.py:134-141 | Succeeds exactly from PENDING and moves to OPEN. |
| Orders.FillStep | trading/domain/order.py:143-174 | Fails on a non-fillable status, a non-positive quantity or an overfill, in that order. Otherwise it adds the fill, becomes FILLED exactly when the quantity is reached (PARTIAL_FILLED otherwise) and takes the execution price when one is given. |
| Orders.CancelStep | trading/domain/order.py:176-184 | Succeeds exactly from OPEN or PARTIAL_FILLED and moves to CANCELLED. |
| Orders.RejectStep | trading/domain/order.py:186-193 | Succeeds exactly from PENDING and moves to REJECTED. |
| Orders.TransitionsAreLegal | trading/domain/order.py:134-193 | Every successful transition is one of the legal status changes. |
| Orders.TransitionsKeepBounds | trading/domain/order.py:134-193 | Transitions keep the order's identity and `0 <= filled <= quantity`. |
| Orders.TerminalIsFinal | trading/domain/order.py:134-193 | No transition leaves FILLED, CANCELLED or REJECTED, and none returns to PENDING. |
| Orders.FillsAccumulate | trading/domain/order.py:143-174 | A run of successful fills adds up its quantities, keeps the bounds and never lowers the filled quantity. |
| Orders.FillsWithinQuantitySucceed | trading/domain/order.py:143-174 | Positive fills that stay within the quantity all succeed on an open order. The order ends FILLED exactly when they reach the quantity. |
| Orders.Remaining | trading/domain/order.py:195-197 | Remaining plus filled equals the quantity. Within the bounds, remaining lies in [0, quantity]. |
| Orders.TotalValue | trading/domain/order.py:205-208 | Price times quantity, in the price's currency. It cannot fail for a valid price and a non-negative quantity. |
| Orders.FilledValue | trading/domain/order.py:210-213 | Price times filled quantity, in the price's currency. |
| Orders.FilledPercentage | trading/domain/order.py:199-203 | Zero for a zero quantity, otherwise the filled share of the quantity scaled to 100. |
| Orders.IsOpen | trading/domain/order.py:215-217 | Open exactly in the statuses a fill or a cancellation accepts. |
| Orders.IsClosed | trading/domain/order.py:219-221 | Closed exactly in the terminal statuses, and never open. |
| Orders.OpenClosedExclusive | trading/domain/order.py:215-221 | `is_open` and `is_closed` exclude each other, PENDING is neither, and closed means terminal. |
| Orders.PercentageBounds | trading/domain/order.py:199-203 | Whenever `0 <= filled <= quantity`, the percentage lies in [0, 100], and it is 100 exactly when the order is fully filled. |
| Orders.FilledValueWithinTotal | trading/domain/order.py:205-213 | The filled value never exceeds the total value. |
| Orders.Order.constructor | trading/domain/order.py:22-46 | The object holds exactly the given state. |
| Orders.Order.Open | trading/domain/order.py:134-141 | Updates the object as `OpenStep` says, or raises and leaves it unchanged. |
| Orders.Order.Fill | trading/domain/order.py:143-174 | Updates the object as `FillStep` says, or raises and leaves it unchanged. Either way the filled quantity never decreases and the bounds are kept. |
| Orders.Order.Cancel | trading/domain/order.py:176-184 | Updates the object as `CancelStep` says, or raises and leaves it unchanged. |
| Orders.Order.Reject | trading/domain/order.py:186-193 | Updates the object as `RejectStep` says, or raises and leaves it unchanged. |
| Repository.ToDomain | trading/infrastructure/repository.py:96-116 | Loading succeeds exactly when the symbol parses and the price is non-negative. The order is priced in the quote currency and keeps every other field. |
| Repository.ToRow | trading/infrastructure/repository.py:81-94 | The row keeps every field of the order, the pair as its symbol and the price as its amount alone. |
| Repository.RowRoundTrip | trading/infrastructure/repository.py:81-116 | Storing and loading an order changes nothing but the price currency, which becomes the quote currency. |
| Repository.LoadIsIdempotent | trading/infrastructure/repository.py:81-116 | A loaded order, stored again, loads the same. |
| Repository.Upsert | trading/infrastructure/repository.py:17-20 | `merge` replaces or adds the row under the order's id, keeps every other row and keeps the key invariant. |
| Repository.Remove | trading/infrastructure/repository.py:73-79 | The row is removed if present, every other row stays, and a missing id is a no-op. |
| Repository.FindById | trading/infrastructure/repository.py:22-30 | A missing id raises `OrderNotFound` with that id. Otherwise the row is loaded, and the order carries that id. |
| Repository.SaveThenFind | trading/infrastructure/repository.py:17-30 | A saved order is found again, reloaded, and every other lookup is unchanged. |
| Repository.SaveReplaces | trading/infrastructure/repository.py:17-20 | Saving twice is saving once, and the later save of an id wins. |
| Repository.DeleteThenFind | trading/infrastructure/repository.py:22-79 | A deleted order is not found, and every other lookup is unchanged. |
| Repository.NewestFirstIds | trading/infrastructure/repository.py:35 | The ids are listed by `created_at` descending, each once, and all of them. |
| Repository.Find | trading/infrastructure/repository.py:32-37 | A query succeeds exactly when every selected row loads, and returns one order per selected row, in order. |
| Repository.FindListed | trading/infrastructure/repository.py:32-71 | A successful query lists exactly the stored orders the filter selects, each once, newest first, each as its row loads. |
| Repository.ListedStatus | trading/infrastructure/repository.py:46-71 | The open and status queries return only orders with the wanted status, and of the wanted user when one is given. |
| Repository.FindByUserId | trading/infrastructure/repository.py:32-37 | Exactly the user's orders, newest first. It succeeds exactly when every row of the user loads. |
| Repository.FindBySymbol | trading/infrastructure/repository.py:39-44 | Exactly the orders stored under that symbol text, newest first. It succeeds exactly when every such row loads. |
| Repository.FindOpenOrders | trading/infrastructure/repository.py:46-59 | Exactly the OPEN and PARTIAL_FILLED orders, of the user when a non-empty id is given. It succeeds exactly when every such row loads. |
| Repository.FindByStatus | trading/infrastructure/repository.py:61-71 | Exactly the orders with that status, with the same optional user filter. It succeeds exactly when every such row loads. |
| Repository.EmptyUserIsNoFilter | trading/infrastructure/repository.py:54-67 | An empty user id filters nothing, as `if user_id:` treats it as missing. |
| Repository.OrderRepository.constructor | trading/infrastructure/repository.py:14-15 | A fresh repository holds no rows. |
| Repository.OrderRepository.Save | trading/infrastructure/repository.py:17-20 | The table becomes `Upsert` of the order's current state. |
| Repository.OrderRepository.Delete | trading/infrastructure/repository.py:73-79 | The table becomes `Remove` of the id, and deleting never raises. |
| Dto.SideErrors | trading/application/dto.py:15-20 | No error exactly when the side is a known side tag. |
| Dto.TypeErrors | trading/application/dto.py:22-27 | No error exactly for LIMIT or MARKET. STOP_LOSS is refused although it is an order type. |
| Dto.PriceErrors | trading/application/dto.py:29-35 | A LIMIT order needs a price, and it must be positive. |
| Dto.QuantityErrors | trading/application/dto.py:13 | The quantity must be positive. |
| Dto.RequestErrorsAsWritten | trading/application/dto.py:7-35 | As written, no error exactly when the side and type are accepted, the quantity is positive and a LIMIT request's price, when stated, is positive. Each error names its field. |
| Dto.RequestErrors | trading/application/dto.py:7-35 | With the price check applied to an omitted price, no error exactly when the request is accepted, a LIMIT one only with a positive price. Each error names its field. |
| Dto.RequestValidation | trading/application/dto.py:7-35 | The corrected validation refuses everything the written one refuses, and more only for a LIMIT request whose price was left out, which it refuses with the price message alone. |
| Dto.OmittedLimitPriceSlipsThrough | trading/application/dto.py:12-35 | A LIMIT request with no price passes as written and is refused once the check covers the default. |
| Dto.AcceptedParses | trading/application/place_order.py:18-19 | A request that passes the validators as written has a side and type that look up enumeration members, and the type is LIMIT exactly when the tag says so. |
| Dto.ToResponse | trading/application/place_order.py:43-56 | The response carries every field of the order. Each tag parses back to the order's enumeration member, and the symbol is the pair's. |
| Dto.ResponseDeterminesOrder | trading/application/place_order.py:43-56 | The response loses only the price currency: two round-tripping orders with equal responses differ in nothing else. |
| PlaceOrder.Built | trading/application/place_order.py:18-35 | A LIMIT request goes to the limit factory and anything else to the market one. It succeeds exactly when the symbol parses, the quantity is in range and a LIMIT price is present and in range. A LIMIT request without a price raises `TypeError` once its symbol parses; no other request raises it. |
| PlaceOrder.WithoutPrice | trading/domain/order.py:82-91 | The limit factory handed no price raises the symbol's `ValueError`, or else the `TypeError` of `Money(None, quote)`. |
| PlaceOrder.Placed | trading/application/place_order.py:16-41 | Succeeds exactly when building does. On success the order is OPEN, unfilled, created at one clock reading and opened at the next, with its fields from the request. Failures are the builder's, `TypeError` only for a LIMIT request without a price. |
| PlaceOrder.AcceptedNeverTypeError | trading/application/dto.py:29-35 | Under the corrected validation the `TypeError` path is never reached. |
| PlaceOrder.OmittedLimitPriceRaises | trading/application/place_order.py:21-28 | The LIMIT request without a price that the validators let through raises `TypeError` when placed. |
| PlaceOrder.PlacedIsStored | trading/application/place_order.py:37-41 | The saved row reads back as the answered order, with status "OPEN" and nothing filled. |
| PlaceOrder.PlaceOrderUseCase.constructor | trading/application/place_order.py:12-14 | The use case works on the given repository. |
| PlaceOrder.PlaceOrderUseCase.Execute | trading/application/place_order.py:16-41 | For any request that passes the validators as written: on success it answers `ToResponse` of the placed order and upserts exactly that order. On failure, including the `TypeError` of a LIMIT request without a price, it raises and stores nothing. |
| CancelOrder.Cancellation | trading/application/cancel_order.py:12-19 | Not found, then not the owner, then not cancellable, in that order. Otherwise the loaded order becomes CANCELLED at the given time. |
| CancelOrder.CancellationRow | trading/application/cancel_order.py:18-19 | A cancellation rewrites only that row. Its status, `updated_at` and normalised symbol change, and the row reads back as the answer. |
| CancelOrder.CancelTwiceFails | trading/application/cancel_order.py:12-19 | Once saved, a second cancellation raises `InvalidOrderOperationException`. |
| CancelOrder.CancelOrderUseCase.constructor | trading/application/cancel_order.py:9-10 | The use case works on the given repository. |
| CancelOrder.CancelOrderUseCase.Execute | trading/application/cancel_order.py:12-33 | On success it saves and answers the cancelled order. On any raise it stores nothing. |
| GetOrder.Detail | trading/application/get_order.py:21-38 | Remaining plus filled equals the quantity, and the total is price times quantity. `is_open` and `is_closed` follow the status tag and exclude each other. Within the bounds the percentage is in [0, 100]. |
| GetOrder.Get | trading/application/get_order.py:14-38 | Raises not-found, then unauthorized, for a foreign order. A successful answer is the detail of the user's own order, and succeeds whenever the stored quantity is non-negative. |
| GetOrder.DetailOfRow | trading/application/get_order.py:16-38 | The detail agrees with the stored row, field by field, and its symbol parses to the row's pair. |
| ListOrders.KeepSymbol | trading/application/list_orders.py:15-16 | Keeps exactly the orders whose pair prints as the symbol. |
| ListOrders.KeepSymbolKeepsOrder | trading/application/list_orders.py:15-16 | Filtering keeps a newest-first, once-each listing so. |
| ListOrders.Kept | trading/application/list_orders.py:15-16 | Keeps exactly the orders the symbol argument wants, and all of them when the argument is missing or empty. |
| ListOrders.KeptOrder | trading/application/list_orders.py:13-16 | The kept orders are newest first and each appears once. |
| ListOrders.KeptRows | trading/application/list_orders.py:13-16 | Every kept order is one of the user's stored orders, as its row loads, and matches the symbol when one is given. |
| ListOrders.KeptComplete | trading/application/list_orders.py:13-16 | Every stored order of the user that matches the symbol is kept. |
| ListOrders.Responses | trading/application/list_orders.py:18-33 | One response per order, in the same order. |
| ListOrders.List | trading/application/list_orders.py:12-38 | Succeeds exactly when the user's query does, that is when every row of the user loads. The total is the number of answered orders. |
| ListOrders.ListAnswers | trading/application/list_orders.py:12-38 | Answers only the user's orders, restricted to a given non-empty symbol, each once and newest first. |
| ListOrders.ListComplete | trading/application/list_orders.py:12-38 | Answers every stored order of the user that matches the symbol. |

## Left out

- Clock: `datetime.utcnow()` is a parameter.
  - `Order.__init__` reads the clock twice when no timestamps are given; both readings are one `now` here.
  - Each use case passes its readings explicitly.
- Order ids: the UUID is an input. `Create` receives the twelve hex digits it would use.
- Decimal: it is the unbounded `real`.
  - `Numeric(20, 8)` rounding and the string column lengths of the table are not modelled.
  - Messages keep numeric holes unrendered, because `str(Decimal)` depends on the exponent.
- `create_money`: not modelled. Its only work beyond `Money` is converting `str`/`float` to `Decimal`, and that conversion does not exist over `real`.
- `Money.__post_init__`: the `isinstance` conversion is not modelled. It is the same no-op over `real`.
- `__str__` and `__repr__`: not modelled for `Money`, `TradingPair` and `Order`. They only render.
- Status in messages: `{self.status}` in the transition messages is rendered as the tag. How Python formats a `str`-mixin enum there depends on the interpreter version.
- Strings are ASCII sequences of characters.
  - `strip` removes ASCII whitespace.
  - `upper` maps only a–z.
  - Unicode case mapping and Unicode whitespace are not modelled.
- The SQLAlchemy session is not modelled: transactions, flush/commit and concurrent sessions.
  - The table is a map from `order_id` to row.
  - Queries return orders with equal `created_at` in an unspecified order.
- The list queries are ghost functions, because the order among equal timestamps is chosen rather than computed. For the same reason `ListOrders.List` is a ghost function.
- `TradeRepository` is not modelled. Its three methods have no body in the repository.
- `ErrorResponse`, the HTTP routes, authentication and the mapping from exceptions to status codes are transport and are not modelled.
- Pydantic is modelled only through the three field validators and the `gt=0` constraint. Type coercion and the exact error structure are not.

## Findings

| source | as written | input that shows it | evidently intended | confidence | as-written member | corrected member |
|---|---|---|---|---|---|---|
| trading/application/dto.py:12-35 | `validate_price` is a field validator on a field whose default is `None`. Pydantic does not run it when `price` is omitted, so a LIMIT request without a price is accepted. `place_limit_order` then builds `Money(None, …)`, which raises `TypeError` on `None < 0` (`PlaceOrder.OmittedLimitPriceRaises`). | `{"user_id": "u1", "symbol": "BTC/USDT", "side": "BUY", "order_type": "LIMIT", "quantity": 1}` | The request is refused with "price is required and must be > 0 for LIMIT order", as the validator's message says. | likely; not executed | Dto.OmittedLimitPriceSlipsThrough | Dto.RequestValidation |
