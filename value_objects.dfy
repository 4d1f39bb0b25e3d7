/**
 * The value objects of the order domain: the three enumerations, `Money`
 * (a non-negative amount tagged with a currency) and `TradingPair` (a base and
 * a quote currency code). Both classes are frozen dataclasses, so each is a
 * datatype here and each constructor, which validates before it returns, is a
 * function onto `Result`.
 */
module ValueObjects {
  import opened PyStr
  import opened TradingErrors

  datatype Side = Buy | Sell

  datatype OrderType = Limit | Market | StopLoss

  datatype Status = Pending | Open | PartialFilled | Filled | Cancelled | Rejected

  /** `.value` of each enumeration: its string tag. */
  function SideTag(s: Side): (tag: string)
    ensures tag == "BUY" || tag == "SELL"
    ensures tag == "BUY" <==> s == Buy
  {
    match s
    case Buy => "BUY"
    case Sell => "SELL"
  }

  function TypeTag(t: OrderType): (tag: string)
    ensures tag in {"LIMIT", "MARKET", "STOP_LOSS"}
    ensures (tag == "LIMIT" <==> t == Limit) && (tag == "MARKET" <==> t == Market)
  {
    match t
    case Limit => "LIMIT"
    case Market => "MARKET"
    case StopLoss => "STOP_LOSS"
  }

  function StatusTag(s: Status): (tag: string)
    ensures tag in {"PENDING", "OPEN", "PARTIAL_FILLED", "FILLED", "CANCELLED", "REJECTED"}
  {
    match s
    case Pending => "PENDING"
    case Open => "OPEN"
    case PartialFilled => "PARTIAL_FILLED"
    case Filled => "FILLED"
    case Cancelled => "CANCELLED"
    case Rejected => "REJECTED"
  }

  /** `OrderSide[tag]`, with `None` where Python raises `KeyError`. */
  function ParseSide(tag: string): (r: Option<Side>)
    ensures r.Some? ==> SideTag(r.value) == tag
    ensures r.None? <==> tag != "BUY" && tag != "SELL"
  {
    if tag == "BUY" then Some(Buy) else if tag == "SELL" then Some(Sell) else None
  }

  /** `OrderType[tag]` */
  function ParseType(tag: string): (r: Option<OrderType>)
    ensures r.Some? ==> TypeTag(r.value) == tag
    ensures r.None? <==> tag != "LIMIT" && tag != "MARKET" && tag != "STOP_LOSS"
  {
    if tag == "LIMIT" then Some(Limit)
    else if tag == "MARKET" then Some(Market)
    else if tag == "STOP_LOSS" then Some(StopLoss)
    else None
  }

  /** `OrderStatus[tag]` */
  function ParseStatus(tag: string): (r: Option<Status>)
    ensures r.Some? ==> StatusTag(r.value) == tag
    ensures r.None? <==> tag !in {"PENDING", "OPEN", "PARTIAL_FILLED", "FILLED", "CANCELLED", "REJECTED"}
  {
    if tag == "PENDING" then Some(Pending)
    else if tag == "OPEN" then Some(Open)
    else if tag == "PARTIAL_FILLED" then Some(PartialFilled)
    else if tag == "FILLED" then Some(Filled)
    else if tag == "CANCELLED" then Some(Cancelled)
    else if tag == "REJECTED" then Some(Rejected)
    else None
  }

  /** Every tag parses back to its variant. */
  lemma TagsRoundTrip(s: Side, t: OrderType, st: Status)
    ensures ParseSide(SideTag(s)) == Some(s)
    ensures ParseType(TypeTag(t)) == Some(t)
    ensures ParseStatus(StatusTag(st)) == Some(st)
  {
  }

  // ---------------------------------------------------------------- Money

  datatype Money = Money(amount: real, currency: string)

  /** What every constructed `Money` satisfies. */
  predicate ValidMoney(m: Money) {
    m.amount >= 0.0 && !IsBlank(m.currency)
  }

  /** `Money(amount, currency)`: the two `__post_init__` checks, in order. */
  function MakeMoney(amount: real, currency: string): (r: Result<Money>)
    ensures r.Ok? <==> amount >= 0.0 && !IsBlank(currency)
    ensures r.Ok? ==> r.value == Money(amount, currency) && ValidMoney(r.value)
    ensures amount < 0.0 ==> r == Err(ValueError([Lit("Amount cannot be negative: "), Num(amount)]))
    ensures amount >= 0.0 && IsBlank(currency) ==> r == Err(ValueError(Str("Currency is required")))
  {
    if amount < 0.0 then Err(ValueError([Lit("Amount cannot be negative: "), Num(amount)]))
    else if IsBlank(currency) then Err(ValueError(Str("Currency is required")))
    else Ok(Money(amount, currency))
  }

  /** What Python says when `None < 0` is evaluated. */
  const NONE_COMPARISON_MESSAGE := "'<' not supported between instances of 'NoneType' and 'int'"

  /**
   * `Money(amount, currency)` where the amount may be `None`: the first check,
   * `amount < 0`, then raises `TypeError` before any other check runs.
   */
  function MakeMoneyOf(amount: Option<real>, currency: string): (r: Result<Money>)
    ensures amount.None? ==> r == Err(TypeError(Str(NONE_COMPARISON_MESSAGE)))
    ensures amount.Some? ==> (r.Ok? <==> amount.value >= 0.0 && !IsBlank(currency))
    ensures amount.Some? && r.Ok? ==> r.value == Money(amount.value, currency)
  {
    match amount
    case None => Err(TypeError(Str(NONE_COMPARISON_MESSAGE)))
    case Some(x) => MakeMoney(x, currency)
  }

  function Add(a: Money, b: Money): (r: Result<Money>)
    ensures a.currency != b.currency ==>
      r == Err(ValueError(Str("Cannot add different currencies: " + a.currency + " and " + b.currency)))
    ensures ValidMoney(a) && ValidMoney(b) && a.currency == b.currency ==>
      r == Ok(Money(a.amount + b.amount, a.currency))
  {
    if a.currency != b.currency then
      Err(ValueError(Str("Cannot add different currencies: " + a.currency + " and " + b.currency)))
    else MakeMoney(a.amount + b.amount, a.currency)
  }

  function Subtract(a: Money, b: Money): (r: Result<Money>)
    ensures a.currency != b.currency ==>
      r == Err(ValueError(Str("Cannot subtract different currencies: " + a.currency + " and " + b.currency)))
    ensures ValidMoney(a) && ValidMoney(b) && a.currency == b.currency ==>
      (r.Ok? <==> a.amount >= b.amount) &&
      (r.Ok? ==> r.value == Money(a.amount - b.amount, a.currency)) &&
      (r.Err? ==> r.error.ValueError?)
  {
    if a.currency != b.currency then
      Err(ValueError(Str("Cannot subtract different currencies: " + a.currency + " and " + b.currency)))
    else MakeMoney(a.amount - b.amount, a.currency)
  }

  function Multiply(m: Money, factor: real): (r: Result<Money>)
    ensures ValidMoney(m) ==> (r.Ok? <==> m.amount == 0.0 || factor >= 0.0)
    ensures r.Ok? ==> r.value == Money(m.amount * factor, m.currency)
  {
    ProductSign(m.amount, factor);
    MakeMoney(m.amount * factor, m.currency)
  }

  lemma ProductSign(x: real, y: real)
    ensures x >= 0.0 ==> (x * y >= 0.0 <==> x == 0.0 || y >= 0.0)
  {
    if x > 0.0 && y < 0.0 {
      assert x * y < 0.0;
    }
  }

  function IsGreaterThan(a: Money, b: Money): (r: Result<bool>)
    ensures a.currency != b.currency ==> r == Err(ValueError(Str("Cannot compare different currencies")))
    ensures a.currency == b.currency ==> r == Ok(a.amount > b.amount)
  {
    if a.currency != b.currency then Err(ValueError(Str("Cannot compare different currencies")))
    else Ok(a.amount > b.amount)
  }

  function IsZero(m: Money): (r: bool)
    ensures ValidMoney(m) ==> (r <==> Add(m, m) == Ok(m))
  {
    m.amount == 0.0
  }

  /** Subtracting what was added gives back the original amount. */
  lemma AddThenSubtract(a: Money, b: Money)
    requires ValidMoney(a) && ValidMoney(b) && a.currency == b.currency
    ensures Add(a, b).Ok? && ValidMoney(Add(a, b).value)
    ensures Subtract(Add(a, b).value, b) == Ok(a)
  {
  }

  /** A zero amount is neutral for `add`, and `is_zero` holds exactly then. */
  lemma ZeroIsNeutral(a: Money, z: Money)
    requires ValidMoney(a) && ValidMoney(z) && a.currency == z.currency
    ensures IsZero(z) <==> Add(a, z) == Ok(a)
  {
  }

  /** `is_greater_than` is a strict order within one currency. */
  lemma GreaterThanIsStrict(a: Money, b: Money)
    requires a.currency == b.currency
    ensures IsGreaterThan(a, a) == Ok(false)
    ensures IsGreaterThan(a, b) == Ok(true) ==> IsGreaterThan(b, a) == Ok(false)
  {
  }

  // ---------------------------------------------------------- TradingPair

  datatype TradingPair = TradingPair(base: string, quote: string)

  /** What every constructed pair satisfies: both codes non-blank and upper-case. */
  predicate ValidPair(p: TradingPair) {
    !IsBlank(p.base) && !IsBlank(p.quote) && Upper(p.base) == p.base && Upper(p.quote) == p.quote
  }

  /** `TradingPair(base, quote)`: blank checks in order, then both codes upper-cased (not stripped). */
  function MakePair(base: string, quote: string): (r: Result<TradingPair>)
    ensures IsBlank(base) ==> r == Err(ValueError(Str("Base currency is required")))
    ensures !IsBlank(base) && IsBlank(quote) ==> r == Err(ValueError(Str("Quote currency is required")))
    ensures r.Ok? <==> !IsBlank(base) && !IsBlank(quote)
    ensures r.Ok? ==> r.value == TradingPair(Upper(base), Upper(quote)) && ValidPair(r.value)
  {
    if IsBlank(base) then Err(ValueError(Str("Base currency is required")))
    else if IsBlank(quote) then Err(ValueError(Str("Quote currency is required")))
    else
      UpperKeepsNonBlank(base);
      UpperKeepsNonBlank(quote);
      Ok(TradingPair(Upper(base), Upper(quote)))
  }

  lemma UpperKeepsNonBlank(s: string)
    ensures IsBlank(s) <==> IsBlank(Upper(s))
    ensures Upper(Upper(s)) == Upper(s)
  {
    BlankIffAllSpace(s);
    BlankIffAllSpace(Upper(s));
    UpperKeepsShape(s);
  }

  /** The `symbol` property. */
  function Symbol(p: TradingPair): (r: string)
    ensures |r| == |p.base| + 1 + |p.quote| && r[|p.base|] == '/'
    ensures r[..|p.base|] == p.base && r[|p.base| + 1..] == p.quote
  {
    p.base + "/" + p.quote
  }

  /** A pair that `from_symbol` reads back from its own `symbol`. */
  predicate RoundTrips(p: TradingPair) {
    ValidPair(p) && '/' !in p.base && '/' !in p.quote && Trimmed(p.base) && Trimmed(p.quote)
  }

  /** `TradingPair.from_symbol`: split on '/' if present, else on '-', else fail; two parts, each stripped. */
  function FromSymbol(symbol: string): (r: Result<TradingPair>)
    ensures '/' !in symbol && '-' !in symbol ==>
      r == Err(ValueError(Str("Invalid symbol format: " + symbol + ". Expected format: BTC/USDT or BTC-USDT")))
    ensures r.Ok? ==> RoundTrips(r.value)
    ensures r.Err? ==> r.error.ValueError?
  {
    if '/' in symbol then FromParts(symbol, Split(symbol, '/'))
    else if '-' in symbol then
      SplitAvoids(symbol, '-', '/');
      FromParts(symbol, Split(symbol, '-'))
    else Err(ValueError(Str("Invalid symbol format: " + symbol + ". Expected format: BTC/USDT or BTC-USDT")))
  }

  /** The tail of `from_symbol` once `parts` is the result of the split. */
  function FromParts(symbol: string, parts: seq<string>): (r: Result<TradingPair>)
    requires forall i :: 0 <= i < |parts| ==> '/' !in parts[i]
    ensures |parts| != 2 ==> r == Err(ValueError(Str("Invalid symbol format: " + symbol)))
    ensures |parts| == 2 ==> r == MakePair(Strip(parts[0]), Strip(parts[1]))
    ensures r.Ok? ==> RoundTrips(r.value)
    ensures r.Err? ==> r.error.ValueError?
  {
    if |parts| != 2 then Err(ValueError(Str("Invalid symbol format: " + symbol)))
    else
      var b, q := Strip(parts[0]), Strip(parts[1]);
      StripTrimmed(parts[0]);
      StripTrimmed(parts[1]);
      StripSubset(parts[0], '/');
      StripSubset(parts[1], '/');
      MakePairRoundTrips(b, q);
      MakePair(b, q)
  }

  /** Constructing from trimmed codes without '/' gives a pair that round-trips. */
  lemma MakePairRoundTrips(base: string, quote: string)
    requires '/' !in base && '/' !in quote && Trimmed(base) && Trimmed(quote)
    ensures MakePair(base, quote).Ok? ==> RoundTrips(MakePair(base, quote).value)
  {
    UpperKeepsShape(base);
    UpperKeepsShape(quote);
  }

  /** `from_symbol(p.symbol) == p` for every pair whose codes hold no '/' and no surrounding whitespace. */
  lemma SymbolRoundTrip(p: TradingPair)
    requires RoundTrips(p)
    ensures FromSymbol(Symbol(p)) == Ok(p)
  {
    var s := Symbol(p);
    assert s == p.base + ['/'] + p.quote;
    SplitOnce(p.base, p.quote, '/');
    assert '/' in s by { assert s[|p.base|] == '/'; }
    StripTrimmedId(p.base);
    StripTrimmedId(p.quote);
  }

  /** Parsing normalises: what `from_symbol` returns prints to a symbol that parses to the same pair. */
  lemma FromSymbolIdempotent(symbol: string)
    requires FromSymbol(symbol).Ok?
    ensures FromSymbol(Symbol(FromSymbol(symbol).value)) == FromSymbol(symbol)
  {
    SymbolRoundTrip(FromSymbol(symbol).value);
  }

  /** A code of capital letters only is already in the form the constructor produces. */
  lemma CapitalCode(s: string)
    requires s != [] && forall i :: 0 <= i < |s| ==> 'A' <= s[i] <= 'Z'
    ensures Upper(s) == s && Strip(s) == s && !IsBlank(s) && Trimmed(s) && '/' !in s && '-' !in s
  {
    forall i | 0 <= i < |s| ensures Upper(s)[i] == s[i] {
      assert 65 <= s[i] as int <= 90;
    }
    assert !IsSpace(s[0]) && !IsSpace(s[|s| - 1]);
    StripTrimmedId(s);
  }

  /** A pair whose base holds '/' is constructible, but its symbol no longer parses. */
  lemma SlashInCodeBreaksRoundTrip()
    ensures MakePair("A/B", "C") == Ok(TradingPair("A/B", "C"))
    ensures FromSymbol(Symbol(TradingPair("A/B", "C"))).Err?
  {
    SlashCodeIsValid();
    SlashSymbolSplits();
    SlashSymbolHasSlash();
    ExtraSeparatorFails(Symbol(TradingPair("A/B", "C")));
  }

  lemma SlashSymbolHasSlash()
    ensures '/' in Symbol(TradingPair("A/B", "C"))
  {
    assert Symbol(TradingPair("A/B", "C"))[1] == '/';
  }

  /** A symbol holding '/' that does not split into exactly two parts is refused. */
  lemma ExtraSeparatorFails(symbol: string)
    requires '/' in symbol && |Split(symbol, '/')| != 2
    ensures FromSymbol(symbol).Err?
  {
  }

  /** "A/B" is upper case and not blank, so the constructor keeps it as it is. */
  lemma SlashCodeIsValid()
    ensures MakePair("A/B", "C") == Ok(TradingPair("A/B", "C"))
  {
    CapitalCode("C");
    var ab := "A" + ['/'] + "B";
    assert ab == "A/B";
    assert Upper(ab) == ab by {
      assert forall i :: 0 <= i < |ab| ==> Upper(ab)[i] == ab[i];
    }
    assert !IsBlank(ab) by {
      BlankIffAllSpace(ab);
      assert !IsSpace(ab[0]);
    }
  }

  /** The symbol "A/B/C" splits into three parts. */
  lemma SlashSymbolSplits()
    ensures |Split(Symbol(TradingPair("A/B", "C")), '/')| == 3
  {
    CapitalCode("A");
    CapitalCode("B");
    CapitalCode("C");
    assert Symbol(TradingPair("A/B", "C")) == "A" + ['/'] + ("B" + ['/'] + "C");
    SplitOnce("B", "C", '/');
    SplitPrefix("A", "B" + ['/'] + "C", '/');
  }

  /** Splitting `a + sep + rest` gives `a` followed by the pieces of `rest`. */
  lemma {:induction false} SplitPrefix(a: string, rest: string, sep: char)
    requires sep !in a
    ensures Split(a + [sep] + rest, sep) == [a] + Split(rest, sep)
  {
    if a == [] {
      assert a + [sep] + rest == [sep] + rest;
      assert ([sep] + rest)[1..] == rest;
    } else {
      var s := a + [sep] + rest;
      assert s[1..] == a[1..] + [sep] + rest;
      SplitPrefix(a[1..], rest, sep);
      assert [a[0]] + a[1..] == a;
    }
  }

  /** `-` is accepted as the separator when the symbol holds no '/'. */
  lemma DashSymbol(p: TradingPair)
    requires RoundTrips(p) && '-' !in p.base && '-' !in p.quote
    ensures FromSymbol(p.base + "-" + p.quote) == Ok(p)
  {
    var s := p.base + "-" + p.quote;
    assert s == p.base + ['-'] + p.quote;
    assert '/' !in s;
    assert '-' in s by { assert s[|p.base|] == '-'; }
    SplitOnce(p.base, p.quote, '-');
    StripTrimmedId(p.base);
    StripTrimmedId(p.quote);
  }
}
