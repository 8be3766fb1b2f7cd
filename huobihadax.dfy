/** The HuobiHadax venue driver: how it turns the venue's REST answers into
    the common trading model. Each REST call is an input (its decoded answer,
    or an error); every operation reports the calls it issued. */
module HuobiHadax {
  import opened Decimal
  import opened Exchange
  import opened Market

  /** The decoded answers of the venue's endpoints, as far as the driver reads them. */
  datatype Symbol = Symbol(baseCurrency: string, quoteCurrency: string)
  datatype MarketDetail = MarketDetail(low: real, close: real, volume: real, high: real, ask: seq<real>, bid: seq<real>)
  /** GetDepth: each level is a raw [price, amount, ...] row. */
  datatype Depth = Depth(bids: seq<seq<real>>, asks: seq<seq<real>>)
  datatype Account = Account(id: Int64)
  datatype BalanceRow = BalanceRow(currency: string, rowType: string, balance: real)
  /** SpotNewOrder's answer: the new order id (0 when none) and the call's error. */
  datatype SpotReply = SpotReply(orderID: Int64, err: Option<Error>)
  /** CancelOpenOrdersBatch's answer: Data.FailedCount and the call's error. */
  datatype BatchReply = BatchReply(failedCount: int, err: Option<Error>)

  /** The venue's order-type codes. */
  datatype SpotOrderType = BuyMarket | SellMarket | BuyLimit | SellLimit

  datatype SpotNewOrderParams = SpotNewOrderParams(
    amount: real, price: real, source: string, symbol: string, accountID: int, orderType: SpotOrderType)

  /** The REST calls the driver issues. */
  datatype Call =
    | GetSymbols
    | GetMarketDetailMerged(pair: Pair)
    | GetDepth(pair: Pair)
    | GetAccounts
    | GetAccountBalance(accountID: string)
    | SpotNewOrder(params: SpotNewOrderParams)
    | CancelExistingOrder(orderID: int)
    | CancelOpenOrdersBatch(accountID: string, pair: Pair)

  /** The driver's own state: its configuration and the configured account id
      ("" when none was configured). No operation below changes it. */
  datatype Driver = Driver(config: Config, accountID: string)

  // ---------------------------------------------------------------- pairs

  /** The pair text of one listed symbol. */
  function PairName(s: Symbol): string {
    s.baseCurrency + "-" + s.quoteCurrency
  }

  /** FetchTradablePairs: one "<base>-<quote>" text per listed symbol, in
      listing order; nothing but the error when the listing fails. */
  method FetchTradablePairs(symbols: Result<seq<Symbol>>) returns (r: Reply<seq<string>, Call>)
    ensures r.calls == [GetSymbols]
    ensures symbols.Err? ==> r.value == [] && r.err == Some(symbols.error)
    ensures symbols.Ok? ==> r.err == None && |r.value| == |symbols.value|
    ensures symbols.Ok? ==> forall i :: 0 <= i < |r.value| ==>
      r.value[i] == symbols.value[i].baseCurrency + "-" + symbols.value[i].quoteCurrency
  {
    if symbols.Err? {
      return Reply([], Some(symbols.error), [GetSymbols]);
    }
    var listed := symbols.value;
    var pairs: seq<string> := [];
    for x := 0 to |listed|
      invariant |pairs| == x
      invariant forall i :: 0 <= i < x ==> pairs[i] == listed[i].baseCurrency + "-" + listed[i].quoteCurrency
    {
      pairs := pairs + [listed[x].baseCurrency + "-" + listed[x].quoteCurrency];
    }
    return Reply(pairs, None, [GetSymbols]);
  }

  /** Splits a pair text at its first "-". */
  function SplitPairName(s: string): Symbol {
    if s == [] then Symbol("", "")
    else if s[0] == '-' then Symbol("", s[1..])
    else
      var rest := SplitPairName(s[1..]);
      Symbol([s[0]] + rest.baseCurrency, rest.quoteCurrency)
  }

  /** The pair text loses nothing when the base currency has no "-" in it. */
  lemma {:induction false} PairNameSplits(s: Symbol)
    requires forall i :: 0 <= i < |s.baseCurrency| ==> s.baseCurrency[i] != '-'
    ensures SplitPairName(PairName(s)) == s
    decreases |s.baseCurrency|
  {
    var b := s.baseCurrency;
    if b == [] {
      assert PairName(s) == "-" + s.quoteCurrency;
    } else {
      var tail := Symbol(b[1..], s.quoteCurrency);
      PairNameSplits(tail);
      assert PairName(s) == [b[0]] + PairName(tail);
      assert [b[0]] + b[1..] == b;
    }
  }

  // ---------------------------------------------------------------- ticker

  /** The ticker built from GetMarketDetailMerged: the first ask and bid
      levels when there are any, 0 otherwise. */
  function TickerFrom(p: Pair, tick: MarketDetail): Price {
    Price(p, tick.close, tick.high, tick.low,
          if |tick.bid| > 0 then tick.bid[0] else 0.0,
          if |tick.ask| > 0 then tick.ask[0] else 0.0,
          tick.volume)
  }

  /** UpdateTicker: fetch, store the ticker under (name, p, asset), return the stored value. */
  method UpdateTicker(store: Store, d: Driver, p: Pair, asset: AssetType, tick: Result<MarketDetail>)
    returns (r: Reply<Price, Call>)
    modifies store
    ensures r.calls == [GetMarketDetailMerged(p)]
    ensures tick.Err? ==> r.value == NoPrice && r.err == Some(tick.error) && store.tickers == old(store.tickers)
    ensures tick.Ok? ==> r.value == TickerFrom(p, tick.value) && r.err == None
    ensures tick.Ok? ==> store.tickers == old(store.tickers)[Key(d.config.name, p, asset) := TickerFrom(p, tick.value)]
    ensures store.books == old(store.books)
  {
    if tick.Err? {
      return Reply(NoPrice, Some(tick.error), [GetMarketDetailMerged(p)]);
    }
    store.ProcessTicker(d.config.name, p, TickerFrom(p, tick.value), asset);
    var cached := store.GetTicker(d.config.name, p, asset);
    return Reply(cached.value, None, [GetMarketDetailMerged(p)]);
  }

  /** FetchTicker: the stored ticker when there is one, without any call;
      otherwise UpdateTicker. */
  method FetchTicker(store: Store, d: Driver, p: Pair, asset: AssetType, tick: Result<MarketDetail>)
    returns (r: Reply<Price, Call>)
    modifies store
    ensures var k := Key(d.config.name, p, asset);
      k in old(store.tickers) ==> r == Reply(old(store.tickers)[k], None, []) && store.tickers == old(store.tickers)
    ensures var k := Key(d.config.name, p, asset);
      k !in old(store.tickers) ==> r.calls == [GetMarketDetailMerged(p)]
    ensures var k := Key(d.config.name, p, asset);
      k !in old(store.tickers) && tick.Err? ==> r.value == NoPrice && r.err == Some(tick.error) && store.tickers == old(store.tickers)
    ensures var k := Key(d.config.name, p, asset);
      k !in old(store.tickers) && tick.Ok? ==>
        r.value == TickerFrom(p, tick.value) && r.err == None
        && store.tickers == old(store.tickers)[k := TickerFrom(p, tick.value)]
    ensures store.books == old(store.books)
  {
    var cached := store.GetTicker(d.config.name, p, asset);
    if cached.Err? {
      r := UpdateTicker(store, d, p, asset, tick);
      return;
    }
    return Reply(cached.value, None, []);
  }

  // ---------------------------------------------------------------- orderbook

  /** Raw depth rows carry at least a price and an amount (a shorter row makes the Go code panic). */
  predicate WellFormedRows(rows: seq<seq<real>>) {
    forall i :: 0 <= i < |rows| ==> |rows[i]| >= 2
  }

  predicate WellFormedDepth(depth: Result<Depth>) {
    depth.Ok? ==> WellFormedRows(depth.value.bids) && WellFormedRows(depth.value.asks)
  }

  /** items holds one level per raw row, in row order, price from column 0 and amount from column 1. */
  predicate Converted(rows: seq<seq<real>>, items: seq<Item>)
    requires WellFormedRows(rows)
  {
    |items| == |rows| && forall i :: 0 <= i < |rows| ==> items[i] == Item(rows[i][0], rows[i][1])
  }

  /** The conversion loop of UpdateOrderbook. */
  method ToItems(rows: seq<seq<real>>) returns (items: seq<Item>)
    requires WellFormedRows(rows)
    ensures |items| == |rows|
    ensures forall i :: 0 <= i < |rows| ==> items[i].price == rows[i][0] && items[i].amount == rows[i][1]
  {
    items := [];
    for x := 0 to |rows|
      invariant |items| == x
      invariant forall i :: 0 <= i < x ==> items[i].price == rows[i][0] && items[i].amount == rows[i][1]
    {
      var data := rows[x];
      items := items + [Item(data[0], data[1])];
    }
  }

  /** UpdateOrderbook: fetch the depth, convert both sides, store the book, return the stored value. */
  method UpdateOrderbook(store: Store, d: Driver, p: Pair, asset: AssetType, depth: Result<Depth>)
    returns (r: Reply<Book, Call>)
    requires WellFormedDepth(depth)
    modifies store
    ensures r.calls == [GetDepth(p)]
    ensures depth.Err? ==> r.value == NoBook && r.err == Some(depth.error) && store.books == old(store.books)
    ensures depth.Ok? ==>
      && r.err == None
      && Converted(depth.value.bids, r.value.bids) && Converted(depth.value.asks, r.value.asks)
      && store.books == old(store.books)[Key(d.config.name, p, asset) := r.value]
    ensures store.tickers == old(store.tickers)
  {
    if depth.Err? {
      return Reply(NoBook, Some(depth.error), [GetDepth(p)]);
    }
    var bids := ToItems(depth.value.bids);
    var asks := ToItems(depth.value.asks);
    store.ProcessOrderbook(d.config.name, p, Book(bids, asks), asset);
    var cached := store.GetOrderbook(d.config.name, p, asset);
    return Reply(cached.value, None, [GetDepth(p)]);
  }

  /** FetchOrderbook: the stored book when there is one, without any call;
      otherwise UpdateOrderbook. */
  method FetchOrderbook(store: Store, d: Driver, p: Pair, asset: AssetType, depth: Result<Depth>)
    returns (r: Reply<Book, Call>)
    requires WellFormedDepth(depth)
    modifies store
    ensures var k := Key(d.config.name, p, asset);
      k in old(store.books) ==> r == Reply(old(store.books)[k], None, []) && store.books == old(store.books)
    ensures var k := Key(d.config.name, p, asset);
      k !in old(store.books) ==> r.calls == [GetDepth(p)]
    ensures var k := Key(d.config.name, p, asset);
      k !in old(store.books) && depth.Err? ==> r.value == NoBook && r.err == Some(depth.error) && store.books == old(store.books)
    ensures var k := Key(d.config.name, p, asset);
      k !in old(store.books) && depth.Ok? ==>
        && r.err == None
        && Converted(depth.value.bids, r.value.bids) && Converted(depth.value.asks, r.value.asks)
        && store.books == old(store.books)[k := r.value]
    ensures store.tickers == old(store.tickers)
  {
    var cached := store.GetOrderbook(d.config.name, p, asset);
    if cached.Err? {
      r := UpdateOrderbook(store, d, p, asset, depth);
      return;
    }
    return Reply(cached.value, None, []);
  }

  // ---------------------------------------------------------------- account

  /** GetAccountID: the configured id without any call; otherwise the decimal
      id of the first fetched account, which is returned but never stored. */
  function GetAccountID(d: Driver, accounts: Result<seq<Account>>): (r: Reply<string, Call>)
    ensures d.accountID != "" ==> r == Reply(d.accountID, None, [])
    ensures d.accountID == "" ==> r.calls == [GetAccounts]
    ensures d.accountID == "" && accounts.Err? ==> r.value == "" && r.err == Some(accounts.error)
    ensures d.accountID == "" && accounts == Ok([]) ==> r.value == "" && r.err == Some(NoAccountID)
    ensures d.accountID == "" && accounts.Ok? && |accounts.value| > 0 ==>
      && r.err == None && r.value == FormatInt(accounts.value[0].id)
      && ParseInt(r.value) == Parsed(accounts.value[0].id)
  {
    if d.accountID == "" then
      match accounts
      case Err(e) => Reply("", Some(e), [GetAccounts])
      case Ok(acc) =>
        if |acc| > 0 then
          FormatParseRoundTrip(acc[0].id);
          Reply(FormatInt(acc[0].id), None, [GetAccounts])
        else Reply("", Some(NoAccountID), [GetAccounts])
    else Reply(d.accountID, None, [])
  }

  /** The per-currency pair of balances GetAccountInfo folds. */
  datatype Holding = Holding(avail: real, hold: real)

  /** The balance of the last row for currency c whose type is "trade"
      (trade == true) or anything else (trade == false); 0 when there is none. */
  function LastBalance(rows: seq<BalanceRow>, c: string, trade: bool): real {
    if rows == [] then 0.0
    else
      var last := rows[|rows| - 1];
      if last.currency == c && (last.rowType == "trade") == trade then last.balance
      else LastBalance(rows[..|rows| - 1], c, trade)
  }

  function Currencies(rows: seq<BalanceRow>): set<string> {
    set i | 0 <= i < |rows| :: rows[i].currency
  }

  lemma {:induction false} LastBalanceAbsent(rows: seq<BalanceRow>, c: string, trade: bool)
    requires c !in Currencies(rows)
    ensures LastBalance(rows, c, trade) == 0.0
  {
    if rows != [] {
      var front := rows[..|rows| - 1];
      assert Currencies(front) <= Currencies(rows) by {
        forall x | x in Currencies(front) ensures x in Currencies(rows) {
          var i :| 0 <= i < |front| && front[i].currency == x;
          assert rows[i].currency == x;
        }
      }
      assert rows[|rows| - 1].currency in Currencies(rows);
      LastBalanceAbsent(front, c, trade);
    }
  }

  /** The folding loop of GetAccountInfo: one entry per distinct currency;
      the last "trade" row sets Avail and the last other row sets Hold. */
  method FoldBalances(rows: seq<BalanceRow>) returns (m: map<string, Holding>)
    ensures m.Keys == Currencies(rows)
    ensures forall c :: c in m ==> m[c] == Holding(LastBalance(rows, c, true), LastBalance(rows, c, false))
  {
    m := map[];
    for i := 0 to |rows|
      invariant m.Keys == Currencies(rows[..i])
      invariant forall c :: c in m ==> m[c] == Holding(LastBalance(rows[..i], c, true), LastBalance(rows[..i], c, false))
    {
      var data := rows[i];
      if data.currency !in m {
        LastBalanceAbsent(rows[..i], data.currency, true);
        LastBalanceAbsent(rows[..i], data.currency, false);
        m := m[data.currency := Holding(0.0, 0.0)];
      }
      if data.rowType == "trade" {
        m := m[data.currency := m[data.currency].(avail := data.balance)];
      } else {
        m := m[data.currency := m[data.currency].(hold := data.balance)];
      }
      assert rows[..i + 1][..i] == rows[..i];
      assert Currencies(rows[..i + 1]) == Currencies(rows[..i]) + {data.currency} by {
        forall x | x in Currencies(rows[..i + 1]) ensures x in Currencies(rows[..i]) + {data.currency} {
          var j :| 0 <= j < i + 1 && rows[..i + 1][j].currency == x;
          if j < i {
            assert rows[..i][j].currency == x;
          }
        }
        forall x | x in Currencies(rows[..i]) ensures x in Currencies(rows[..i + 1]) {
          var j :| 0 <= j < i && rows[..i][j].currency == x;
          assert rows[..i + 1][j].currency == x;
        }
        assert rows[..i + 1][i].currency == data.currency;
      }
    }
    assert rows[..|rows|] == rows;
  }

  /** One AccountCurrencyInfo per folded currency. */
  function CurrencyEntry(c: string, h: Holding): AccountCurrencyInfo {
    AccountCurrencyInfo(c, h.avail + h.hold, h.hold)
  }

  function Names(balances: seq<AccountCurrencyInfo>): set<string> {
    set i | 0 <= i < |balances| :: balances[i].currencyName
  }

  /** The listing loop of GetAccountInfo. Go visits the map in no fixed order,
      so the model picks each next currency arbitrarily. */
  method ListBalances(m: map<string, Holding>) returns (balances: seq<AccountCurrencyInfo>)
    ensures Names(balances) == m.Keys
    ensures forall i, j :: 0 <= i < j < |balances| ==> balances[i].currencyName != balances[j].currencyName
    ensures forall i :: 0 <= i < |balances| ==>
      balances[i].currencyName in m && balances[i] == CurrencyEntry(balances[i].currencyName, m[balances[i].currencyName])
  {
    balances := [];
    var rest := m.Keys;
    while rest != {}
      invariant rest <= m.Keys
      invariant Names(balances) == m.Keys - rest
      invariant forall i, j :: 0 <= i < j < |balances| ==> balances[i].currencyName != balances[j].currencyName
      invariant forall i :: 0 <= i < |balances| ==>
        balances[i].currencyName in m && balances[i] == CurrencyEntry(balances[i].currencyName, m[balances[i].currencyName])
      decreases rest
    {
      var c :| c in rest;
      var next := balances + [CurrencyEntry(c, m[c])];
      assert Names(next) == Names(balances) + {c} by {
        forall x | x in Names(next) ensures x in Names(balances) + {c} {
          var j :| 0 <= j < |next| && next[j].currencyName == x;
          if j < |balances| {
            assert balances[j].currencyName == x;
          }
        }
        forall x | x in Names(balances) ensures x in Names(next) {
          var j :| 0 <= j < |balances| && balances[j].currencyName == x;
          assert next[j].currencyName == x;
        }
        assert next[|balances|].currencyName == c;
      }
      balances := next;
      rest := rest - {c};
    }
  }

  /** What GetAccountInfo promises of its currency list, in terms of the balance rows. */
  predicate FoldedBalances(rows: seq<BalanceRow>, balances: seq<AccountCurrencyInfo>) {
    && Names(balances) == Currencies(rows)
    && (forall i, j :: 0 <= i < j < |balances| ==> balances[i].currencyName != balances[j].currencyName)
    && (forall i :: 0 <= i < |balances| ==>
          var c := balances[i].currencyName;
          && balances[i].hold == LastBalance(rows, c, false)
          && balances[i].totalValue == LastBalance(rows, c, true) + LastBalance(rows, c, false))
  }

  /** GetAccountInfo: the account id, then its balance rows folded per currency. */
  method GetAccountInfo(d: Driver, accounts: Result<seq<Account>>, balance: Result<seq<BalanceRow>>)
    returns (r: Reply<AccountInfo, Call>)
    ensures r.value.exchangeName == d.config.name
    ensures var id := GetAccountID(d, accounts);
      id.err.Some? ==> r.value.currencies == [] && r.err == id.err && r.calls == id.calls
    ensures var id := GetAccountID(d, accounts);
      id.err.None? ==> r.calls == id.calls + [GetAccountBalance(id.value)]
    ensures var id := GetAccountID(d, accounts);
      id.err.None? && balance.Err? ==> r.value.currencies == [] && r.err == Some(balance.error)
    ensures var id := GetAccountID(d, accounts);
      id.err.None? && balance.Ok? ==> r.err == None && FoldedBalances(balance.value, r.value.currencies)
  {
    var id := GetAccountID(d, accounts);
    if id.err.Some? {
      return Reply(AccountInfo(d.config.name, []), id.err, id.calls);
    }
    var calls := id.calls + [GetAccountBalance(id.value)];
    if balance.Err? {
      return Reply(AccountInfo(d.config.name, []), Some(balance.error), calls);
    }
    var folded := FoldBalances(balance.value);
    var balances := ListBalances(folded);
    return Reply(AccountInfo(d.config.name, balances), None, calls);
  }

  // ---------------------------------------------------------------- orders

  function SideOf(code: SpotOrderType): OrderSide {
    match code
    case BuyMarket => Buy
    case BuyLimit => Buy
    case SellMarket => Sell
    case SellLimit => Sell
  }

  function KindOf(code: SpotOrderType): OrderType {
    match code
    case BuyMarket => Market
    case SellMarket => Market
    case BuyLimit => Limit
    case SellLimit => Limit
  }

  /** SubmitOrder's decision table: a code for each of the four (side, type)
      combinations it knows, none for anything else. The code determines the
      combination, so distinct combinations get distinct codes. */
  function OrderTypeCode(side: OrderSide, t: OrderType): (r: Option<SpotOrderType>)
    ensures r.Some? <==> (side == Buy || side == Sell) && (t == Market || t == Limit)
    ensures r.Some? ==> SideOf(r.value) == side && KindOf(r.value) == t
  {
    if side == Buy && t == Market then Some(BuyMarket)
    else if side == Sell && t == Market then Some(SellMarket)
    else if side == Buy && t == Limit then Some(BuyLimit)
    else if side == Sell && t == Limit then Some(SellLimit)
    else None
  }

  function LowerChar(c: char): char {
    if 'A' <= c <= 'Z' then (c as int + 32) as char else c
  }

  /** strings.ToLower on ASCII letters. */
  function Lower(s: string): (r: string)
    ensures |r| == |s|
    ensures forall i :: 0 <= i < |s| ==> r[i] == LowerChar(s[i])
  {
    if s == [] then [] else [LowerChar(s[0])] + Lower(s[1..])
  }

  /** The request SubmitOrder sends: the price only for limit orders. */
  function OrderParams(p: Pair, code: SpotOrderType, amount: real, price: real, clientAccount: int): SpotNewOrderParams {
    SpotNewOrderParams(amount, if KindOf(code) == Limit then price else 0.0, "api", Lower(PairText(p)), clientAccount, code)
  }

  /** SubmitOrder. clientAccount is the value strconv.ParseInt(clientID, 0, 64)
      left in its result; its error is overwritten by SpotNewOrder's and never
      returned. An unsupported combination is refused before any call. The
      order id is reported only when the venue's id is positive, and the order
      counts as placed exactly when SpotNewOrder returned no error. */
  function SubmitOrder(p: Pair, side: OrderSide, orderType: OrderType, amount: real, price: real,
                       clientAccount: int, spot: SpotReply): (r: Reply<SubmitOrderResponse, Call>)
    ensures OrderTypeCode(side, orderType).None? ==> r == Reply(NotSubmitted, Some(UnsupportedOrderType), [])
    ensures OrderTypeCode(side, orderType).Some? ==>
      && |r.calls| == 1 && r.calls[0].SpotNewOrder?
      && r.calls[0].params.orderType == OrderTypeCode(side, orderType).value
      && r.calls[0].params.price == (if orderType == Limit then price else 0.0)
      && r.calls[0].params.amount == amount
      && r.calls[0].params.accountID == clientAccount
      && r.calls[0].params.symbol == Lower(PairText(p))
      && r.calls[0].params.source == "api"
    ensures OrderTypeCode(side, orderType).Some? ==>
      && r.value.orderID == (if spot.orderID > 0 then FormatInt(spot.orderID) else "")
      && (r.value.orderID != "" <==> spot.orderID > 0)
      && (spot.orderID > 0 ==> ParseInt(r.value.orderID) == Parsed(spot.orderID))
      && r.value.isOrderPlaced == spot.err.None?
      && r.err == spot.err
  {
    match OrderTypeCode(side, orderType)
    case None => Reply(NotSubmitted, Some(UnsupportedOrderType), [])
    case Some(code) =>
      var params := OrderParams(p, code, amount, price, clientAccount);
      FormatParseRoundTrip(spot.orderID);
      Reply(SubmitOrderResponse(spot.err.None?, if spot.orderID > 0 then FormatInt(spot.orderID) else ""),
            spot.err, [SpotNewOrder(params)])
  }

  /** CancelOrder: the order id must be a base-10 int64; otherwise the parse
      error is returned and nothing is cancelled. */
  function CancelOrder(order: OrderCancellation, cancelled: Option<Error>): (r: Reply<(), Call>)
    ensures ParseInt(order.orderID).Parsed? ==>
      r.calls == [CancelExistingOrder(ParseInt(order.orderID).value)] && r.err == cancelled
    ensures !ParseInt(order.orderID).Parsed? ==>
      r.calls == [] && r.err == Some(NumError(order.orderID, ParseInt(order.orderID).RangeError?))
  {
    match ParseOrderID(order.orderID)
    case Err(e) => Reply((), Some(e), [])
    case Ok(id) => Reply((), cancelled, [CancelExistingOrder(id)])
  }

  /** An order id SubmitOrder reports is one CancelOrder accepts, and it
      cancels that very order. */
  lemma SubmittedOrderCancels(p: Pair, side: OrderSide, orderType: OrderType, amount: real, price: real,
                              clientAccount: int, spot: SpotReply, accountID: string, cancelled: Option<Error>)
    requires SubmitOrder(p, side, orderType, amount, price, clientAccount, spot).value.orderID != ""
    ensures var id := SubmitOrder(p, side, orderType, amount, price, clientAccount, spot).value.orderID;
      CancelOrder(OrderCancellation(id, accountID), cancelled).calls == [CancelExistingOrder(spot.orderID)]
  {
    var id := SubmitOrder(p, side, orderType, amount, price, clientAccount, spot).value.orderID;
    assert id == FormatInt(spot.orderID);
    FormatParseRoundTrip(spot.orderID);
  }

  /** The error one CancelOpenOrdersBatch answer stands for. */
  function BatchError(b: BatchReply): Option<Error> {
    if b.err.Some? then b.err
    else if b.failedCount > 0 then Some(OrdersFailedToCancel(b.failedCount))
    else None
  }

  /** CancelAllOrders: one batch cancel per enabled spot pair, in order,
      stopping at the first batch that errs or reports failed orders. batch(j)
      is the venue's answer to the j-th batch call. The status map is always empty. */
  method CancelAllOrders(d: Driver, oc: OrderCancellation, batch: nat -> BatchReply)
    returns (r: Reply<CancelAllOrdersResponse, Call>)
    ensures r.value.orderStatus == map[]
    ensures |r.calls| <= |EnabledPairs(d.config, Spot)|
    ensures forall j :: 0 <= j < |r.calls| ==>
      r.calls[j] == CancelOpenOrdersBatch(oc.accountID, EnabledPairs(d.config, Spot)[j])
    ensures forall j :: 0 <= j < |r.calls| - 1 ==> BatchError(batch(j)).None?
    ensures r.err.None? ==>
      && |r.calls| == |EnabledPairs(d.config, Spot)|
      && forall j :: 0 <= j < |r.calls| ==> BatchError(batch(j)).None?
    ensures r.err.Some? ==> |r.calls| > 0 && r.err == BatchError(batch(|r.calls| - 1))
  {
    var pairs := EnabledPairs(d.config, Spot);
    var calls: seq<Call> := [];
    for j := 0 to |pairs|
      invariant |calls| == j
      invariant forall k :: 0 <= k < j ==>
        calls[k] == CancelOpenOrdersBatch(oc.accountID, pairs[k]) && BatchError(batch(k)).None?
    {
      calls := calls + [CancelOpenOrdersBatch(oc.accountID, pairs[j])];
      var resp := batch(j);
      if resp.err.Some? {
        return Reply(CancelAllOrdersResponse(map[]), resp.err, calls);
      }
      if resp.failedCount > 0 {
        return Reply(CancelAllOrdersResponse(map[]), Some(OrdersFailedToCancel(resp.failedCount)), calls);
      }
    }
    return Reply(CancelAllOrdersResponse(map[]), None, calls);
  }
}
