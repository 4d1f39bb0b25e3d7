/**
 * Listing a user's orders, newest first, optionally narrowed to one symbol,
 * as flat projections together with their count.
 */
module ListOrders {
  import opened TradingErrors
  import opened ValueObjects
  import opened Orders
  import opened Repository
  import opened Dto

  /** Orders by `created_at` descending, each order once. */
  predicate NewestFirstOnce(orders: seq<OrderState>) {
    forall i, j :: 0 <= i < j < |orders| ==>
      orders[i].createdAt >= orders[j].createdAt && orders[i].orderId != orders[j].orderId
  }

  /** `[o for o in orders if o.trading_pair.symbol == symbol]` */
  function KeepSymbol(orders: seq<OrderState>, symbol: string): (r: seq<OrderState>)
    ensures forall o :: o in r <==> o in orders && Symbol(o.pair) == symbol
    ensures |r| <= |orders|
  {
    if orders == [] then []
    else (if Symbol(orders[0].pair) == symbol then [orders[0]] else []) + KeepSymbol(orders[1..], symbol)
  }

  /** The tail of such a listing is one too, and its head is newer than, and distinct from, all the rest. */
  lemma SplitListing(orders: seq<OrderState>)
    requires NewestFirstOnce(orders) && orders != []
    ensures NewestFirstOnce(orders[1..])
    ensures forall o :: o in orders[1..] ==> o.createdAt <= orders[0].createdAt && o.orderId != orders[0].orderId
  {
    var tail := orders[1..];
    forall i, j | 0 <= i < j < |tail|
      ensures tail[i].createdAt >= tail[j].createdAt && tail[i].orderId != tail[j].orderId
    {
      assert tail[i] == orders[i + 1] && tail[j] == orders[j + 1];
    }
    forall o | o in tail ensures o.createdAt <= orders[0].createdAt && o.orderId != orders[0].orderId {
      var k :| 0 <= k < |tail| && tail[k] == o;
      assert orders[k + 1] == o;
    }
  }

  /** Putting an order in front of a listing of older, different orders gives a listing. */
  lemma JoinListing(head: OrderState, rest: seq<OrderState>)
    requires NewestFirstOnce(rest)
    requires forall o :: o in rest ==> o.createdAt <= head.createdAt && o.orderId != head.orderId
    ensures NewestFirstOnce([head] + rest)
  {
    var r := [head] + rest;
    forall i, j | 0 <= i < j < |r| ensures r[i].createdAt >= r[j].createdAt && r[i].orderId != r[j].orderId {
      if i == 0 {
        assert r[j] == rest[j - 1];
        assert r[j] in rest;
      } else {
        assert r[i] == rest[i - 1] && r[j] == rest[j - 1];
      }
    }
  }

  /** Filtering keeps the relative order, so the newest-first, once-each listing stays so. */
  lemma {:induction false} KeepSymbolKeepsOrder(orders: seq<OrderState>, symbol: string)
    requires NewestFirstOnce(orders)
    ensures NewestFirstOnce(KeepSymbol(orders, symbol))
  {
    if orders != [] {
      SplitListing(orders);
      KeepSymbolKeepsOrder(orders[1..], symbol);
      if Symbol(orders[0].pair) == symbol {
        JoinListing(orders[0], KeepSymbol(orders[1..], symbol));
      }
    }
  }

  /** Whether a loaded order survives the symbol argument. */
  predicate SymbolWanted(symbol: Option<string>, s: OrderState) {
    symbol.None? || symbol.value == "" || Symbol(s.pair) == symbol.value
  }

  /** The `symbol` argument narrows the listing only when it is given and non-empty. */
  function Kept(orders: seq<OrderState>, symbol: Option<string>): (r: seq<OrderState>)
    ensures forall o :: o in r <==> o in orders && SymbolWanted(symbol, o)
    ensures |r| <= |orders|
    ensures symbol.None? || symbol.value == "" ==> r == orders
  {
    if symbol.Some? && symbol.value != "" then KeepSymbol(orders, symbol.value) else orders
  }

  /** The kept orders keep the listing's newest-first, once-each order. */
  lemma KeptOrder(store: Store, userId: string, symbol: Option<string>, orders: seq<OrderState>)
    requires Listed(store, ByUser(userId), orders)
    ensures NewestFirstOnce(Kept(orders, symbol))
  {
    assert NewestFirstOnce(orders);
    if symbol.Some? && symbol.value != "" {
      KeepSymbolKeepsOrder(orders, symbol.value);
    }
  }

  /** Each kept order is one of the user's stored orders, as its row loads, and the symbol argument wants it. */
  lemma KeptRows(store: Store, userId: string, symbol: Option<string>, orders: seq<OrderState>)
    requires Listed(store, ByUser(userId), orders)
    ensures var kept := Kept(orders, symbol);
      forall i :: 0 <= i < |kept| ==>
        (kept[i].userId == userId && kept[i].orderId in store && ToDomain(store[kept[i].orderId]) == Ok(kept[i])
         && SymbolWanted(symbol, kept[i]))
  {
    var kept := Kept(orders, symbol);
    forall i | 0 <= i < |kept|
      ensures kept[i].userId == userId && kept[i].orderId in store && ToDomain(store[kept[i].orderId]) == Ok(kept[i])
        && SymbolWanted(symbol, kept[i])
    {
      assert kept[i] in orders;
      var k :| 0 <= k < |orders| && orders[k] == kept[i];
      ListedAt(store, ByUser(userId), orders, k);
    }
  }

  /** One entry of a listing, unfolded. */
  lemma ListedAt(store: Store, f: Filter, orders: seq<OrderState>, k: int)
    requires Listed(store, f, orders) && 0 <= k < |orders|
    ensures orders[k].orderId in store && Matches(f, store[orders[k].orderId])
    ensures Mirrors(store[orders[k].orderId], orders[k]) && ToDomain(store[orders[k].orderId]) == Ok(orders[k])
  {
  }

  /** Every stored order of the user that loads and that the symbol argument wants is kept. */
  lemma KeptComplete(store: Store, userId: string, symbol: Option<string>, orders: seq<OrderState>, id: string)
    requires Listed(store, ByUser(userId), orders)
    requires id in store && store[id].userId == userId && ToDomain(store[id]).Ok?
    requires SymbolWanted(symbol, ToDomain(store[id]).value)
    ensures exists i :: 0 <= i < |Kept(orders, symbol)| && Kept(orders, symbol)[i].orderId == id
  {
    var kept := Kept(orders, symbol);
    assert Matches(ByUser(userId), store[id]);
    var k :| 0 <= k < |orders| && orders[k].orderId == id;
    ListedAt(store, ByUser(userId), orders, k);
    if symbol.Some? && symbol.value != "" {
      assert Symbol(orders[k].pair) == symbol.value;
      assert orders[k] in KeepSymbol(orders, symbol.value);
    } else {
      assert kept == orders;
    }
    assert orders[k] in kept;
  }

  /** The flat projection of each order, in the same order. */
  function Responses(orders: seq<OrderState>): (r: seq<OrderResponse>)
    ensures |r| == |orders| && forall i :: 0 <= i < |orders| ==> r[i] == ToResponse(orders[i])
  {
    seq(|orders|, i requires 0 <= i < |orders| => ToResponse(orders[i]))
  }

  /** `ListOrdersUseCase.execute(user_id, symbol)`; the total is the length of the answer. */
  ghost function List(store: Store, userId: string, symbol: Option<string>): (r: Result<OrderListResponse>)
    requires Keyed(store)
    ensures r.Ok? <==> FindByUserId(store, userId).Ok?
    ensures r.Ok? <==> AllLoad(store, ByUser(userId))
    ensures FindByUserId(store, userId).Err? ==> r == Err(FindByUserId(store, userId).error)
    ensures r.Ok? ==> (r.value.total == |r.value.orders|
      && r.value.orders == Responses(Kept(FindByUserId(store, userId).value, symbol)))
  {
    var orders :- FindByUserId(store, userId);
    var kept := Kept(orders, symbol);
    Ok(OrderListResponse(|kept|, Responses(kept)))
  }

  /**
   * What the answer promises: only the user's orders, restricted to the symbol when
   * one is given, each once and newest first.
   */
  lemma ListAnswers(store: Store, userId: string, symbol: Option<string>)
    requires Keyed(store) && List(store, userId, symbol).Ok?
    ensures var rs := List(store, userId, symbol).value.orders;
      (forall i :: 0 <= i < |rs| ==>
         (rs[i].userId == userId && rs[i].orderId in store && store[rs[i].orderId].userId == userId
          && (symbol.Some? && symbol.value != "" ==> rs[i].symbol == symbol.value)))
      && (forall i, j :: 0 <= i < j < |rs| ==> rs[i].createdAt >= rs[j].createdAt && rs[i].orderId != rs[j].orderId)
  {
    var orders := FindByUserId(store, userId).value;
    var kept := Kept(orders, symbol);
    var rs := List(store, userId, symbol).value.orders;
    KeptOrder(store, userId, symbol, orders);
    KeptRows(store, userId, symbol, orders);
    assert rs == Responses(kept);
    forall i | 0 <= i < |rs|
      ensures rs[i].userId == userId && rs[i].orderId in store && store[rs[i].orderId].userId == userId
        && (symbol.Some? && symbol.value != "" ==> rs[i].symbol == symbol.value)
    {
      assert rs[i] == ToResponse(kept[i]);
      assert Mirrors(store[kept[i].orderId], kept[i]);
    }
  }

  /** ... and all of them: every stored order of the user that the symbol argument wants is answered. */
  lemma ListComplete(store: Store, userId: string, symbol: Option<string>, id: string)
    requires Keyed(store) && List(store, userId, symbol).Ok?
    requires id in store && store[id].userId == userId && ToDomain(store[id]).Ok?
    requires SymbolWanted(symbol, ToDomain(store[id]).value)
    ensures var rs := List(store, userId, symbol).value.orders;
      exists i :: 0 <= i < |rs| && rs[i].orderId == id
  {
    var orders := FindByUserId(store, userId).value;
    var kept := Kept(orders, symbol);
    var rs := List(store, userId, symbol).value.orders;
    KeptComplete(store, userId, symbol, orders, id);
    var i :| 0 <= i < |kept| && kept[i].orderId == id;
    assert rs[i] == ToResponse(kept[i]);
  }
}
