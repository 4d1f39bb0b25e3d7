/**
 * The order store. The database session is a map from `order_id` (the primary
 * key of the `orders` table) to a row; `save` upserts a row, `delete` removes
 * one, and every query filters the rows, lists the matches newest first and
 * converts each back into an order.
 */
module Repository {
  import opened PyStr
  import opened TradingErrors
  import opened ValueObjects
  import opened Orders

  /** A row of the `orders` table. The stored enums carry the same names as the domain ones. */
  datatype Row = Row(
    orderId: string,
    userId: string,
    symbol: string,
    side: Side,
    orderType: OrderType,
    price: real,
    quantity: real,
    filled: real,
    status: Status,
    createdAt: int,
    updatedAt: int)

  type Store = map<string, Row>

  /** The primary-key invariant: every row is stored under its own `order_id`. */
  predicate Keyed(store: Store) {
    forall id :: id in store ==> store[id].orderId == id
  }

  /** `_domain_to_model`: the pair is stored by its symbol and the price by its amount alone. */
  function ToRow(s: OrderState): (row: Row)
    ensures Mirrors(row, s)
    ensures row.symbol == Symbol(s.pair) && row.price == s.price.amount
  {
    Row(s.orderId, s.userId, Symbol(s.pair), s.side, s.orderType, s.price.amount, s.quantity, s.filled,
        s.status, s.createdAt, s.updatedAt)
  }

  /**
   * `_model_to_domain`: parse the stored symbol, then price the order in the
   * pair's quote currency; either step may raise.
   */
  function ToDomain(row: Row): (r: Result<OrderState>)
    ensures r.Ok? <==> FromSymbol(row.symbol).Ok? && row.price >= 0.0
    ensures FromSymbol(row.symbol).Err? ==> r == Err(FromSymbol(row.symbol).error)
    ensures FromSymbol(row.symbol).Ok? && row.price < 0.0 ==> r.Err? && r.error.ValueError?
    ensures r.Ok? ==> (RoundTrips(r.value.pair) && r.value.pair == FromSymbol(row.symbol).value
      && r.value.price == Money(row.price, r.value.pair.quote) && Mirrors(row, r.value))
  {
    match FromSymbol(row.symbol)
    case Err(e) => Err(e)
    case Ok(pair) =>
      match MakeMoney(row.price, pair.quote)
      case Err(e) => Err(e)
      case Ok(price) =>
        Ok(OrderState(row.orderId, row.userId, pair, row.side, row.orderType, price, row.quantity, row.status,
                      row.filled, row.createdAt, row.updatedAt))
  }

  /** Every field a row stores as it is, apart from the symbol and the price. */
  predicate Mirrors(row: Row, s: OrderState) {
    row.orderId == s.orderId && row.userId == s.userId && row.side == s.side && row.orderType == s.orderType
    && row.quantity == s.quantity && row.filled == s.filled && row.status == s.status
    && row.createdAt == s.createdAt && row.updatedAt == s.updatedAt
  }

  /** An order as it reads back from the store: priced in its quote currency. */
  function Reloaded(s: OrderState): OrderState {
    s.(price := Money(s.price.amount, s.pair.quote))
  }

  /**
   * Storing and loading keeps every field but the price currency, which becomes the
   * quote currency, for orders whose pair round-trips through its symbol.
   */
  lemma RowRoundTrip(s: OrderState)
    requires RoundTrips(s.pair) && s.price.amount >= 0.0
    ensures ToDomain(ToRow(s)) == Ok(Reloaded(s))
    ensures ToRow(Reloaded(s)) == ToRow(s)
  {
    SymbolRoundTrip(s.pair);
    LoadRow(ToRow(s), s.pair);
  }

  /** A row whose symbol parses to `p` loads field by field. */
  lemma LoadRow(row: Row, p: TradingPair)
    requires FromSymbol(row.symbol) == Ok(p) && row.price >= 0.0
    ensures ToDomain(row) == Ok(OrderState(row.orderId, row.userId, p, row.side, row.orderType,
                                           Money(row.price, p.quote), row.quantity, row.status, row.filled,
                                           row.createdAt, row.updatedAt))
  {
  }

  /** Loading normalises: a loaded order stored again loads the same and stores the same row. */
  lemma LoadIsIdempotent(row: Row)
    requires ToDomain(row).Ok?
    ensures ToDomain(ToRow(ToDomain(row).value)) == ToDomain(row)
  {
    var s := ToDomain(row).value;
    RowRoundTrip(s);
    assert Reloaded(s) == s;
  }

  // -------------------------------------------------------- store updates

  /** `save`: `merge` replaces the row with the same primary key or adds one. */
  function Upsert(store: Store, s: OrderState): (r: Store)
    ensures Keyed(store) ==> Keyed(r)
    ensures r.Keys == store.Keys + {s.orderId} && r[s.orderId] == ToRow(s)
    ensures forall id :: id in store && id != s.orderId ==> r[id] == store[id]
  {
    store[s.orderId := ToRow(s)]
  }

  /** `delete`: remove the row when it is there, otherwise nothing happens. */
  function Remove(store: Store, id: string): (r: Store)
    ensures Keyed(store) ==> Keyed(r)
    ensures r.Keys == store.Keys - {id}
    ensures forall other :: other in r ==> r[other] == store[other]
    ensures id !in store ==> r == store
  {
    store - {id}
  }

  /** `find_by_id`: the stored order, or `OrderNotFound` carrying the id. */
  function FindById(store: Store, id: string): (r: Result<OrderState>)
    ensures id !in store ==> r == Err(OrderNotFound(id))
    ensures id in store ==> r == ToDomain(store[id])
    ensures Keyed(store) && r.Ok? ==> r.value.orderId == id
  {
    if id !in store then Err(OrderNotFound(id)) else ToDomain(store[id])
  }

  /** A saved order is found again, reloaded; saving one order leaves every other lookup as it was. */
  lemma SaveThenFind(store: Store, s: OrderState, other: string)
    requires RoundTrips(s.pair) && s.price.amount >= 0.0
    ensures FindById(Upsert(store, s), s.orderId) == Ok(Reloaded(s))
    ensures other != s.orderId ==> FindById(Upsert(store, s), other) == FindById(store, other)
  {
    RowRoundTrip(s);
  }

  /** Saving twice is saving once, and the second save of an order replaces the first. */
  lemma SaveReplaces(store: Store, s: OrderState, t: OrderState)
    requires s.orderId == t.orderId
    ensures Upsert(Upsert(store, s), s) == Upsert(store, s)
    ensures Upsert(Upsert(store, s), t) == Upsert(store, t)
  {
  }

  /** A deleted order is not found; other lookups are unaffected. */
  lemma DeleteThenFind(store: Store, id: string, other: string)
    ensures FindById(Remove(store, id), id) == Err(OrderNotFound(id))
    ensures other != id ==> FindById(Remove(store, id), other) == FindById(store, other)
  {
  }

  // ---------------------------------------------------------------- lists

  /** The row filters of the four list queries. */
  datatype Filter =
    | ByUser(userId: string)
    | BySymbol(symbol: string)
    | OpenOrders(user: Option<string>)
    | ByStatus(status: Status, user: Option<string>)

  /** The optional user filter: applied only when the argument is given and non-empty. */
  predicate UserFilter(user: Option<string>, row: Row) {
    user.None? || user.value == "" || row.userId == user.value
  }

  predicate Matches(f: Filter, row: Row) {
    match f
    case ByUser(u) => row.userId == u
    case BySymbol(sym) => row.symbol == sym
    case OpenOrders(u) => (row.status == Status.Open || row.status == PartialFilled) && UserFilter(u, row)
    case ByStatus(st, u) => row.status == st && UserFilter(u, row)
  }

  ghost function Matching(store: Store, f: Filter): (ids: set<string>)
    ensures ids <= store.Keys
  {
    set id | id in store && Matches(f, store[id])
  }

  lemma {:induction false} NewestExists(store: Store, ids: set<string>)
    requires ids != {} && ids <= store.Keys
    ensures exists id :: id in ids && forall other :: other in ids ==> store[other].createdAt <= store[id].createdAt
    decreases |ids|
  {
    var x :| x in ids;
    var rest := ids - {x};
    if rest == {} {
      assert ids == {x};
    } else {
      NewestExists(store, rest);
      var y :| y in rest && forall other :: other in rest ==> store[other].createdAt <= store[y].createdAt;
      if store[x].createdAt <= store[y].createdAt {
        assert forall other :: other in ids ==> store[other].createdAt <= store[y].createdAt;
      } else {
        assert forall other :: other in ids ==> store[other].createdAt <= store[x].createdAt;
      }
    }
  }

  /**
   * The ids in `ids`, each once, ordered by `created_at` descending. Among equal
   * timestamps the database promises no order, so the choice is left unspecified.
   */
  ghost function NewestFirstIds(store: Store, ids: set<string>): (r: seq<string>)
    requires ids <= store.Keys
    ensures forall i :: 0 <= i < |r| ==> r[i] in ids
    ensures forall id :: id in ids ==> id in r
    ensures forall i, j :: 0 <= i < j < |r| ==> r[i] != r[j]
    ensures forall i, j :: 0 <= i < j < |r| ==> store[r[i]].createdAt >= store[r[j]].createdAt
    decreases |ids|
  {
    if ids == {} then []
    else
      NewestExists(store, ids);
      var id :| id in ids && forall other :: other in ids ==> store[other].createdAt <= store[id].createdAt;
      var rest := NewestFirstIds(store, ids - {id});
      PrependNewest(store, ids, id, rest);
      [id] + rest
  }

  /** Putting the newest id in front of the newest-first listing of the others lists all of them. */
  lemma PrependNewest(store: Store, ids: set<string>, id: string, rest: seq<string>)
    requires ids <= store.Keys && id in ids
    requires forall other :: other in ids ==> store[other].createdAt <= store[id].createdAt
    requires forall i :: 0 <= i < |rest| ==> rest[i] in ids - {id}
    requires forall x :: x in ids - {id} ==> x in rest
    requires forall i, j :: 0 <= i < j < |rest| ==> rest[i] != rest[j]
    requires forall i, j :: 0 <= i < j < |rest| ==> store[rest[i]].createdAt >= store[rest[j]].createdAt
    ensures forall i :: 0 <= i < |[id] + rest| ==> ([id] + rest)[i] in ids
    ensures forall x :: x in ids ==> x in [id] + rest
    ensures forall i, j :: 0 <= i < j < |[id] + rest| ==> ([id] + rest)[i] != ([id] + rest)[j]
    ensures forall i, j :: 0 <= i < j < |[id] + rest| ==>
      store[([id] + rest)[i]].createdAt >= store[([id] + rest)[j]].createdAt
  {
    var r := [id] + rest;
    assert forall i :: 1 <= i < |r| ==> r[i] == rest[i - 1];
    forall x | x in ids ensures x in r {
      if x != id {
        assert x in ids - {id};
        assert x in rest;
        var k :| 0 <= k < |rest| && rest[k] == x;
        assert r[k + 1] == x;
      }
    }
  }

  /** The rows stored under `ids`, in that order. */
  ghost function RowsOf(store: Store, ids: seq<string>): (rows: seq<Row>)
    requires forall i :: 0 <= i < |ids| ==> ids[i] in store
    ensures |rows| == |ids| && forall i :: 0 <= i < |ids| ==> rows[i] == store[ids[i]]
  {
    seq(|ids|, i requires 0 <= i < |ids| => store[ids[i]])
  }

  /** Rows listed by `created_at` descending. */
  predicate NewestFirst(rows: seq<Row>) {
    forall i, j :: 0 <= i < j < |rows| ==> rows[i].createdAt >= rows[j].createdAt
  }

  /**
   * `rows` are exactly the stored rows that `f` selects, each once, newest first:
   * what the query hands to the loader.
   */
  ghost predicate Selected(store: Store, f: Filter, rows: seq<Row>) {
    NewestFirst(rows)
    && (forall i :: 0 <= i < |rows| ==> rows[i].orderId in store && store[rows[i].orderId] == rows[i] && Matches(f, rows[i]))
    && (forall id :: id in store && Matches(f, store[id]) ==> exists i :: 0 <= i < |rows| && rows[i].orderId == id)
    && (forall i, j :: 0 <= i < j < |rows| ==> rows[i].orderId != rows[j].orderId)
  }

  /** Listing the matching ids newest first and fetching their rows selects exactly the matching rows. */
  lemma RowsOfSelected(store: Store, f: Filter, ids: seq<string>)
    requires Keyed(store)
    requires forall i :: 0 <= i < |ids| ==> ids[i] in Matching(store, f)
    requires forall id :: id in Matching(store, f) ==> id in ids
    requires forall i, j :: 0 <= i < j < |ids| ==> ids[i] != ids[j]
    requires forall i, j :: 0 <= i < j < |ids| ==> store[ids[i]].createdAt >= store[ids[j]].createdAt
    ensures Selected(store, f, RowsOf(store, ids))
  {
    var rows := RowsOf(store, ids);
    forall i | 0 <= i < |rows| ensures rows[i].orderId == ids[i] && store[rows[i].orderId] == rows[i] && Matches(f, rows[i]) {
      assert ids[i] in Matching(store, f);
    }
    forall id | id in store && Matches(f, store[id]) ensures exists i :: 0 <= i < |rows| && rows[i].orderId == id {
      assert id in Matching(store, f);
      var i :| 0 <= i < |ids| && ids[i] == id;
      assert rows[i].orderId == id;
    }
  }

  /** The rows `f` selects, newest first; the order among equal timestamps is left open. */
  ghost function Select(store: Store, f: Filter): (rows: seq<Row>)
    requires Keyed(store)
    ensures Selected(store, f, rows)
  {
    var ids := NewestFirstIds(store, Matching(store, f));
    RowsOfSelected(store, f, ids);
    RowsOf(store, ids)
  }

  /**
   * `orders` is what loading `rows` returns: one order per row, in the same
   * order, so the listing keeps the query's newest-first order.
   */
  ghost predicate LoadedFrom(rows: seq<Row>, orders: seq<OrderState>) {
    |orders| == |rows| && forall i :: 0 <= i < |rows| ==> ToDomain(rows[i]) == Ok(orders[i])
  }

  /** Every stored row that `f` selects loads without raising. */
  ghost predicate AllLoad(store: Store, f: Filter) {
    forall id :: id in store && Matches(f, store[id]) ==> ToDomain(store[id]).Ok?
  }

  /** The selected rows all load exactly when every stored row the filter selects does. */
  lemma SelectedLoad(store: Store, f: Filter, rows: seq<Row>)
    requires Selected(store, f, rows)
    ensures (forall i :: 0 <= i < |rows| ==> ToDomain(rows[i]).Ok?) <==> AllLoad(store, f)
  {
    if forall i :: 0 <= i < |rows| ==> ToDomain(rows[i]).Ok? {
      forall id | id in store && Matches(f, store[id]) ensures ToDomain(store[id]).Ok? {
        var i :| 0 <= i < |rows| && rows[i].orderId == id;
        assert rows[i] == store[id];
      }
    }
  }

  /** The shared query: select, order newest first, load each row as `[_model_to_domain(m) for m in rows]`. */
  ghost function Find(store: Store, f: Filter): (r: Result<seq<OrderState>>)
    requires Keyed(store)
    ensures r.Ok? <==> AllLoad(store, f)
    ensures r.Ok? ==> LoadedFrom(Select(store, f), r.value)
  {
    SelectedLoad(store, f, Select(store, f));
    MapResults(ToDomain, Select(store, f))
  }

  /**
   * What a listing promises: exactly the stored orders `f` selects, each once,
   * newest first, each as its row loads.
   */
  ghost predicate Listed(store: Store, f: Filter, orders: seq<OrderState>) {
    (forall i, j :: 0 <= i < j < |orders| ==> orders[i].createdAt >= orders[j].createdAt)
    && (forall i :: 0 <= i < |orders| ==>
          (orders[i].orderId in store && Matches(f, store[orders[i].orderId])
           && Mirrors(store[orders[i].orderId], orders[i]) && ToDomain(store[orders[i].orderId]) == Ok(orders[i])))
    && (forall id :: id in store && Matches(f, store[id]) ==> exists i :: 0 <= i < |orders| && orders[i].orderId == id)
    && (forall i, j :: 0 <= i < j < |orders| ==> orders[i].orderId != orders[j].orderId)
  }

  /** Loading the selected rows gives a listing. */
  lemma {:induction false} FindListed(store: Store, f: Filter, orders: seq<OrderState>)
    requires Keyed(store) && LoadedFrom(Select(store, f), orders)
    ensures Listed(store, f, orders)
  {
    var rows := Select(store, f);
    forall i | 0 <= i < |rows| ensures Mirrors(rows[i], orders[i]) {
      assert ToDomain(rows[i]) == Ok(orders[i]);
    }
    forall i, j | 0 <= i < j < |orders|
      ensures orders[i].createdAt >= orders[j].createdAt && orders[i].orderId != orders[j].orderId
    {
      assert Mirrors(rows[i], orders[i]) && Mirrors(rows[j], orders[j]);
    }
    forall id | id in store && Matches(f, store[id]) ensures exists i :: 0 <= i < |orders| && orders[i].orderId == id {
      var i :| 0 <= i < |rows| && rows[i].orderId == id;
      assert orders[i].orderId == id;
    }
  }

  /** Each listed order carries the status and owner of the row that the filter selected. */
  lemma ListedStatus(store: Store, f: Filter, orders: seq<OrderState>)
    requires Listed(store, f, orders) && (f.OpenOrders? || f.ByStatus?)
    ensures forall i :: 0 <= i < |orders| ==>
      (f.OpenOrders? ==> IsOpen(orders[i])) && (f.ByStatus? ==> orders[i].status == f.status)
      && (f.user.Some? && f.user.value != "" ==> orders[i].userId == f.user.value)
  {
    forall i | 0 <= i < |orders|
      ensures (f.OpenOrders? ==> IsOpen(orders[i])) && (f.ByStatus? ==> orders[i].status == f.status)
        && (f.user.Some? && f.user.value != "" ==> orders[i].userId == f.user.value)
    {
      var row := store[orders[i].orderId];
      assert Matches(f, row) && Mirrors(row, orders[i]);
    }
  }

  /** A successful query is a listing of what its filter selects. */
  lemma FoundListed(store: Store, f: Filter)
    requires Keyed(store)
    ensures Find(store, f).Ok? ==> Listed(store, f, Find(store, f).value)
  {
    if Find(store, f).Ok? {
      FindListed(store, f, Find(store, f).value);
    }
  }

  /** A successful status or open-orders query lists only orders of the wanted status and user. */
  lemma FoundStatus(store: Store, f: Filter)
    requires Keyed(store) && (f.OpenOrders? || f.ByStatus?)
    ensures var r := Find(store, f);
      r.Ok? ==> forall i :: 0 <= i < |r.value| ==>
        (f.OpenOrders? ==> IsOpen(r.value[i])) && (f.ByStatus? ==> r.value[i].status == f.status)
        && (f.user.Some? && f.user.value != "" ==> r.value[i].userId == f.user.value)
  {
    FoundListed(store, f);
    if Find(store, f).Ok? {
      ListedStatus(store, f, Find(store, f).value);
    }
  }

  /** A successful symbol query lists only orders stored under that symbol text. */
  lemma FoundSymbol(store: Store, symbol: string)
    requires Keyed(store)
    ensures var r := Find(store, BySymbol(symbol));
      r.Ok? ==> forall i :: 0 <= i < |r.value| ==> store[r.value[i].orderId].symbol == symbol
  {
    FoundListed(store, BySymbol(symbol));
  }

  /**
   * `find_by_user_id`: exactly the orders of that user, newest first; it raises
   * only when one of the user's rows does not load.
   */
  ghost function FindByUserId(store: Store, userId: string): (r: Result<seq<OrderState>>)
    requires Keyed(store)
    ensures r.Ok? <==> AllLoad(store, ByUser(userId))
    ensures r.Ok? ==> (Listed(store, ByUser(userId), r.value)
      && forall i :: 0 <= i < |r.value| ==> r.value[i].userId == userId)
  {
    FoundListed(store, ByUser(userId));
    Find(store, ByUser(userId))
  }

  /** `find_by_symbol`: exactly the orders stored under that symbol text, newest first. */
  ghost function FindBySymbol(store: Store, symbol: string): (r: Result<seq<OrderState>>)
    requires Keyed(store)
    ensures r.Ok? <==> AllLoad(store, BySymbol(symbol))
    ensures r.Ok? ==> (Listed(store, BySymbol(symbol), r.value)
      && forall i :: 0 <= i < |r.value| ==> store[r.value[i].orderId].symbol == symbol)
  {
    FoundListed(store, BySymbol(symbol));
    FoundSymbol(store, symbol);
    Find(store, BySymbol(symbol))
  }

  /** `find_open_orders`: OPEN and PARTIAL_FILLED orders, of one user when a non-empty id is given. */
  ghost function FindOpenOrders(store: Store, user: Option<string>): (r: Result<seq<OrderState>>)
    requires Keyed(store)
    ensures r.Ok? <==> AllLoad(store, OpenOrders(user))
    ensures r.Ok? ==> (Listed(store, OpenOrders(user), r.value)
      && forall i :: 0 <= i < |r.value| ==>
           (IsOpen(r.value[i]) && (user.Some? && user.value != "" ==> r.value[i].userId == user.value)))
  {
    FoundListed(store, OpenOrders(user));
    FoundStatus(store, OpenOrders(user));
    Find(store, OpenOrders(user))
  }

  /** `find_by_status`: orders with exactly that status, with the same optional user filter. */
  ghost function FindByStatus(store: Store, status: Status, user: Option<string>): (r: Result<seq<OrderState>>)
    requires Keyed(store)
    ensures r.Ok? <==> AllLoad(store, ByStatus(status, user))
    ensures r.Ok? ==> (Listed(store, ByStatus(status, user), r.value)
      && forall i :: 0 <= i < |r.value| ==>
           (r.value[i].status == status && (user.Some? && user.value != "" ==> r.value[i].userId == user.value)))
  {
    FoundListed(store, ByStatus(status, user));
    FoundStatus(store, ByStatus(status, user));
    Find(store, ByStatus(status, user))
  }

  /** With no user (or an empty one) the status query lists every order with that status. */
  lemma EmptyUserIsNoFilter(store: Store, status: Status)
    requires Keyed(store)
    ensures FindByStatus(store, status, Some("")) == FindByStatus(store, status, None)
    ensures FindOpenOrders(store, Some("")) == FindOpenOrders(store, None)
  {
    assert Matching(store, ByStatus(status, Some(""))) == Matching(store, ByStatus(status, None));
    assert Matching(store, OpenOrders(Some(""))) == Matching(store, OpenOrders(None));
  }

  // ------------------------------------------------------------ the class

  /** `OrderRepository` over its session, seen as the table's rows. */
  class OrderRepository {
    var rows: Store

    predicate Valid()
      reads this
    {
      Keyed(rows)
    }

    constructor ()
      ensures Valid() && rows == map[]
    {
      rows := map[];
    }

    /** `save(order)` */
    method Save(order: Order)
      requires Valid()
      modifies this
      ensures Valid() && rows == Upsert(old(rows), order.State())
    {
      rows := rows[order.orderId := ToRow(order.State())];
    }

    /** `delete(order_id)`: never fails. */
    method Delete(orderId: string)
      requires Valid()
      modifies this
      ensures Valid() && rows == Remove(old(rows), orderId)
    {
      if orderId in rows {
        rows := rows - {orderId};
      }
    }
  }
}
