/** The types every venue driver shares: the common trading model the drivers
    normalise into, the errors they return, and the (value, error) pair of a
    Go call together with the REST calls it issued. */
module Exchange {
  import opened Decimal

  datatype Option<T> = None | Some(value: T)

  /** The errors the two drivers produce or pass through. */
  datatype Error =
    | Remote(text: string)            // returned by a REST call; opaque to the drivers
    | NoAccountID                     // "no account ID fetched"
    | UnsupportedOrderType            // "Unsupported order type"
    | OrdersFailedToCancel(count: int) // "<count> orders failed to cancel"
    | AdNotFound                      // "Ad placed, but not found via API"
    | NumError(num: string, outOfRange: bool) // strconv.ParseInt's *NumError
    | TickerNotFound                  // the ticker store has no entry for the key
    | OrderbookNotFound               // the orderbook store has no entry for the key

  /** err.Error(): the text a Go caller sees. A venue's error reaches the
      caller verbatim; the drivers' own errors carry their fixed messages,
      with the failed count or the rejected number written into the text. */
  function ErrorText(e: Error): (r: string)
    ensures e.Remote? ==> r == e.text
    ensures e.NoAccountID? ==> r == "no account ID fetched"
    ensures e.UnsupportedOrderType? ==> r == "Unsupported order type"
    ensures e.AdNotFound? ==> r == "Ad placed, but not found via API"
    ensures e.OrdersFailedToCancel? ==> r == FormatInt(e.count) + " orders failed to cancel"
    ensures e.NumError? ==>
      r == "strconv.ParseInt: parsing \"" + e.num + "\": "
           + (if e.outOfRange then "value out of range" else "invalid syntax")
  {
    match e
    case Remote(text) => text
    case NoAccountID => "no account ID fetched"
    case UnsupportedOrderType => "Unsupported order type"
    case OrdersFailedToCancel(count) => FormatInt(count) + " orders failed to cancel"
    case AdNotFound => "Ad placed, but not found via API"
    case NumError(num, outOfRange) =>
      "strconv.ParseInt: parsing \"" + num + "\": "
      + (if outOfRange then "value out of range" else "invalid syntax")
    case TickerNotFound => "ticker not found"
    case OrderbookNotFound => "orderbook not found"
  }

  /** The failed-orders message names its count: two messages are equal only
      when the counts are. */
  lemma FailedCountTextInjective(a: int, b: int)
    requires ErrorText(OrdersFailedToCancel(a)) == ErrorText(OrdersFailedToCancel(b))
    ensures a == b
  {
    var suffix := " orders failed to cancel";
    var ta, tb := FormatInt(a), FormatInt(b);
    assert ta + suffix == tb + suffix;
    assert |ta| == |tb|;
    assert ta == (ta + suffix)[..|ta|];
    assert tb == (tb + suffix)[..|tb|];
    FormatIntInjective(a, b);
  }

  /** strconv.ParseInt(s, 10, 64) with its error turned into an Error. */
  function ParseOrderID(s: string): (r: Result<int>)
    ensures r.Ok? <==> ParseInt(s).Parsed?
    ensures r.Ok? ==> r.value == ParseInt(s).value
    ensures r.Err? ==> r.error == NumError(s, ParseInt(s).RangeError?)
  {
    match ParseInt(s)
    case Parsed(n) => Ok(n)
    case SyntaxError => Err(NumError(s, false))
    case RangeError => Err(NumError(s, true))
  }

  /** The answer of one REST call: a decoded value or an error. */
  datatype Result<T> = Ok(value: T) | Err(error: Error)

  /** What a driver operation returns: Go's (value, error) pair, plus the
      REST calls of type C the operation issued, in order. */
  datatype Reply<T, C> = Reply(value: T, err: Option<Error>, calls: seq<C>)

  /** pair.CurrencyPair: two currency codes and the delimiter written between them. */
  datatype Pair = Pair(delimiter: string, first: string, second: string)

  /** p.Pair().String() */
  function PairText(p: Pair): string {
    p.first + p.delimiter + p.second
  }

  type AssetType = string
  const Spot: AssetType := "spot"

  /** The configured part of a driver: its name and its enabled pairs per asset type. */
  datatype Config = Config(name: string, enabled: map<AssetType, seq<Pair>>)

  /** GetEnabledPairs(asset) */
  function EnabledPairs(cfg: Config, asset: AssetType): seq<Pair> {
    if asset in cfg.enabled then cfg.enabled[asset] else []
  }

  /** exchange.OrderSide and exchange.OrderType; the Other variants stand for
      every value besides the named ones. */
  datatype OrderSide = Buy | Sell | OtherSide(name: string)
  datatype OrderType = Market | Limit | OtherType(name: string)

  datatype SubmitOrderResponse = SubmitOrderResponse(isOrderPlaced: bool, orderID: string)

  /** The zero SubmitOrderResponse. */
  const NotSubmitted := SubmitOrderResponse(false, "")

  /** exchange.OrderCancellation: the fields the drivers read. */
  datatype OrderCancellation = OrderCancellation(orderID: string, accountID: string)

  datatype CancelAllOrdersResponse = CancelAllOrdersResponse(orderStatus: map<string, string>)

  datatype AccountCurrencyInfo = AccountCurrencyInfo(currencyName: string, totalValue: real, hold: real)

  datatype AccountInfo = AccountInfo(exchangeName: string, currencies: seq<AccountCurrencyInfo>)
}
