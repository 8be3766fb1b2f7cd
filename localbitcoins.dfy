/** The LocalBitcoins venue driver. The venue trades bitcoin against local
    currencies through advertisements ("ads"), so an order is an ad: placing
    one creates an ad, cancelling one deletes it. Each REST call is an input
    (its decoded answer, or an error); every operation reports the calls it
    issued. */
module LocalBitcoins {
  import opened Decimal
  import opened Exchange
  import opened Market

  /** GetTicker's answer per currency: the 24h average price and the BTC volume. */
  datatype CurrencyTicker = CurrencyTicker(avg24h: real, volumeBTC: real)

  /** What indexing Go's ticker map with an absent currency yields. */
  const NoCurrencyTicker := CurrencyTicker(0.0, 0.0)

  /** GetOrderbook's levels: a price and an amount in the local currency. */
  datatype Offer = Offer(price: real, amount: real)
  datatype OfferBook = OfferBook(bids: seq<Offer>, asks: seq<Offer>)

  /** GetWalletBalance's answer: Total.Balance. */
  datatype Wallet = Wallet(totalBalance: real)

  /** The ad SubmitOrder creates. */
  datatype AdCreate = AdCreate(
    priceEquation: string, latitude: int, longitude: int, city: string, location: string,
    countryCode: string, currency: string, accountInfo: string, bankName: string,
    msg: OrderSide, smsVerificationRequired: bool, trackMaxAmount: bool,
    requireTrustedByAdvertiser: bool, requireIdentification: bool,
    onlineProvider: string, tradeType: string, minAmount: int)

  /** One listed ad, as Getads returns it. */
  datatype AdData = AdData(
    adID: int, priceEquation: string, lat: real, lon: real, city: string, location: string,
    countryCode: string, currency: string, accountInfo: string, bankName: string,
    smsVerificationRequired: bool, trackMaxAmount: bool, requireTrustedByAdvertiser: bool,
    onlineProvider: string, tradeType: string, minAmount: string)

  /** Getads's answer: the listed ads together with the call's error. */
  datatype Ads = Ads(adList: seq<AdData>, err: Option<Error>)

  /** The REST calls the driver issues. */
  datatype Call =
    | GetTradableCurrencies
    | GetTicker
    | GetOrderbook(currency: string)
    | GetWalletBalance
    | CreateAd(params: AdCreate)
    | Getads
    | DeleteAd(adID: string)

  // ---------------------------------------------------------------- pairs

  /** FetchTradablePairs: one "BTC<currency>" text per tradable currency, in
      order; nothing but the error when the listing fails. */
  method FetchTradablePairs(currencies: Result<seq<string>>) returns (r: Reply<seq<string>, Call>)
    ensures r.calls == [GetTradableCurrencies]
    ensures currencies.Err? ==> r.value == [] && r.err == Some(currencies.error)
    ensures currencies.Ok? ==> r.err == None && |r.value| == |currencies.value|
    ensures currencies.Ok? ==> forall i :: 0 <= i < |r.value| ==>
      |r.value[i]| >= 3 && r.value[i][..3] == "BTC" && r.value[i][3..] == currencies.value[i]
  {
    if currencies.Err? {
      return Reply([], Some(currencies.error), [GetTradableCurrencies]);
    }
    var listed := currencies.value;
    var pairs: seq<string> := [];
    for x := 0 to |listed|
      invariant |pairs| == x
      invariant forall i :: 0 <= i < x ==> pairs[i] == "BTC" + listed[i]
    {
      pairs := pairs + ["BTC" + listed[x]];
    }
    return Reply(pairs, None, [GetTradableCurrencies]);
  }

  // ---------------------------------------------------------------- ticker

  function TickerOf(tick: map<string, CurrencyTicker>, currency: string): CurrencyTicker {
    if currency in tick then tick[currency] else NoCurrencyTicker
  }

  /** The ticker stored for an enabled pair: last = the 24h average, volume =
      the BTC volume of the pair's second currency; every other field 0. */
  function PriceFor(x: Pair, tick: map<string, CurrencyTicker>): Price {
    var t := TickerOf(tick, x.second);
    Price(x, t.avg24h, 0.0, 0.0, 0.0, 0.0, t.volumeBTC)
  }

  /** The entries UpdateTicker writes: one per enabled pair. */
  function Written(name: string, pairs: seq<Pair>, asset: AssetType, tick: map<string, CurrencyTicker>): map<Key, Price> {
    map x | x in pairs :: Key(name, x, asset) := PriceFor(x, tick)
  }

  /** Writing the entries of one more pair. */
  lemma WrittenStep(name: string, pairs: seq<Pair>, i: nat, asset: AssetType, tick: map<string, CurrencyTicker>)
    requires i < |pairs|
    ensures Written(name, pairs[..i + 1], asset, tick)
         == Written(name, pairs[..i], asset, tick)[Key(name, pairs[i], asset) := PriceFor(pairs[i], tick)]
  {
    assert pairs[..i + 1] == pairs[..i] + [pairs[i]];
  }

  /** Setting a key after merging two maps is merging with the key set in the second. */
  lemma MergeThenSet<K, V>(a: map<K, V>, b: map<K, V>, k: K, v: V)
    ensures (a + b)[k := v] == a + b[k := v]
  {
  }

  /** Every pair has its entry among the written ones. */
  lemma WrittenCovers(name: string, pairs: seq<Pair>, asset: AssetType, tick: map<string, CurrencyTicker>)
    ensures forall x :: x in pairs ==>
      Key(name, x, asset) in Written(name, pairs, asset, tick)
      && Written(name, pairs, asset, tick)[Key(name, x, asset)] == PriceFor(x, tick)
  {
  }

  /** UpdateTicker: one GetTicker call answers for every currency; a ticker is
      stored for every enabled pair, and the result is whatever the store then
      holds for the requested pair (an error if that pair is not enabled and
      was never stored). */
  method UpdateTicker(store: Store, cfg: Config, p: Pair, asset: AssetType, tick: Result<map<string, CurrencyTicker>>)
    returns (r: Reply<Price, Call>)
    modifies store
    ensures r.calls == [GetTicker]
    ensures tick.Err? ==> r.value == NoPrice && r.err == Some(tick.error) && store.tickers == old(store.tickers)
    ensures tick.Ok? ==> store.tickers == old(store.tickers) + Written(cfg.name, EnabledPairs(cfg, asset), asset, tick.value)
    ensures tick.Ok? ==> forall x :: x in EnabledPairs(cfg, asset) ==>
      Key(cfg.name, x, asset) in store.tickers
      && store.tickers[Key(cfg.name, x, asset)].last == TickerOf(tick.value, x.second).avg24h
      && store.tickers[Key(cfg.name, x, asset)].volume == TickerOf(tick.value, x.second).volumeBTC
    ensures tick.Ok? ==> var k := Key(cfg.name, p, asset);
      && (k in store.tickers ==> r.value == store.tickers[k] && r.err == None)
      && (k !in store.tickers ==> r.value == NoPrice && r.err == Some(TickerNotFound))
    ensures store.books == old(store.books)
  {
    if tick.Err? {
      return Reply(NoPrice, Some(tick.error), [GetTicker]);
    }
    var pairs := EnabledPairs(cfg, asset);
    for i := 0 to |pairs|
      invariant store.tickers == old(store.tickers) + Written(cfg.name, pairs[..i], asset, tick.value)
      invariant store.books == old(store.books)
    {
      var x := pairs[i];
      store.ProcessTicker(cfg.name, x, PriceFor(x, tick.value), asset);
      WrittenStep(cfg.name, pairs, i, asset, tick.value);
      MergeThenSet(old(store.tickers), Written(cfg.name, pairs[..i], asset, tick.value),
                   Key(cfg.name, x, asset), PriceFor(x, tick.value));
    }
    assert pairs[..|pairs|] == pairs;
    WrittenCovers(cfg.name, pairs, asset, tick.value);
    var cached := store.GetTicker(cfg.name, p, asset);
    if cached.Err? {
      return Reply(NoPrice, Some(cached.error), [GetTicker]);
    }
    return Reply(cached.value, None, [GetTicker]);
  }

  /** FetchTicker: the stored ticker when there is one, without any call;
      otherwise UpdateTicker. On a miss for a pair that is not enabled the
      update stores nothing under its key, so the call fails even when the
      venue answered. */
  method FetchTicker(store: Store, cfg: Config, p: Pair, asset: AssetType, tick: Result<map<string, CurrencyTicker>>)
    returns (r: Reply<Price, Call>)
    modifies store
    ensures var k := Key(cfg.name, p, asset);
      k in old(store.tickers) ==> r == Reply(old(store.tickers)[k], None, []) && store.tickers == old(store.tickers)
    ensures var k := Key(cfg.name, p, asset);
      k !in old(store.tickers) ==> r.calls == [GetTicker]
    ensures var k := Key(cfg.name, p, asset);
      k !in old(store.tickers) && tick.Err? ==> r.value == NoPrice && r.err == Some(tick.error) && store.tickers == old(store.tickers)
    ensures var k := Key(cfg.name, p, asset);
      k !in old(store.tickers) && tick.Ok? ==>
        && store.tickers == old(store.tickers) + Written(cfg.name, EnabledPairs(cfg, asset), asset, tick.value)
        && (p in EnabledPairs(cfg, asset) ==> r.value == PriceFor(p, tick.value) && r.err == None)
        && (p !in EnabledPairs(cfg, asset) ==> r.value == NoPrice && r.err == Some(TickerNotFound))
    ensures store.books == old(store.books)
  {
    var cached := store.GetTicker(cfg.name, p, asset);
    if cached.Err? {
      r := UpdateTicker(store, cfg, p, asset, tick);
      return;
    }
    return Reply(cached.value, None, []);
  }

  // ---------------------------------------------------------------- orderbook

  /** amount / price. A zero price is given amount 0 here (see README). */
  function Div(amount: real, price: real): real {
    if price == 0.0 then 0.0 else amount / price
  }

  /** The conversion loop of UpdateOrderbook: the price is kept and the
      local-currency amount becomes a BTC amount, amount / price. */
  method ToItems(offers: seq<Offer>) returns (items: seq<Item>)
    ensures |items| == |offers|
    ensures forall i :: 0 <= i < |offers| ==>
      items[i].price == offers[i].price && items[i].amount == Div(offers[i].amount, offers[i].price)
    ensures forall i :: 0 <= i < |offers| && offers[i].price != 0.0 ==>
      items[i].amount * items[i].price == offers[i].amount
  {
    items := [];
    for x := 0 to |offers|
      invariant |items| == x
      invariant forall i :: 0 <= i < x ==>
        items[i].price == offers[i].price && items[i].amount == Div(offers[i].amount, offers[i].price)
    {
      var data := offers[x];
      items := items + [Item(data.price, Div(data.amount, data.price))];
    }
  }

  /** items holds one level per offer, in order, with the converted amount. */
  predicate Converted(offers: seq<Offer>, items: seq<Item>) {
    |items| == |offers| && forall i :: 0 <= i < |offers| ==>
      items[i] == Item(offers[i].price, Div(offers[i].amount, offers[i].price))
  }

  /** UpdateOrderbook: fetch the pair's second currency's book, convert both
      sides, store the book, return the stored value. */
  method UpdateOrderbook(store: Store, cfg: Config, p: Pair, asset: AssetType, book: Result<OfferBook>)
    returns (r: Reply<Book, Call>)
    modifies store
    ensures r.calls == [GetOrderbook(p.second)]
    ensures book.Err? ==> r.value == NoBook && r.err == Some(book.error) && store.books == old(store.books)
    ensures book.Ok? ==>
      && r.err == None
      && Converted(book.value.bids, r.value.bids) && Converted(book.value.asks, r.value.asks)
      && store.books == old(store.books)[Key(cfg.name, p, asset) := r.value]
    ensures store.tickers == old(store.tickers)
  {
    if book.Err? {
      return Reply(NoBook, Some(book.error), [GetOrderbook(p.second)]);
    }
    var bids := ToItems(book.value.bids);
    var asks := ToItems(book.value.asks);
    store.ProcessOrderbook(cfg.name, p, Book(bids, asks), asset);
    var cached := store.GetOrderbook(cfg.name, p, asset);
    return Reply(cached.value, None, [GetOrderbook(p.second)]);
  }

  /** FetchOrderbook: the stored book when there is one, without any call;
      otherwise UpdateOrderbook. */
  method FetchOrderbook(store: Store, cfg: Config, p: Pair, asset: AssetType, book: Result<OfferBook>)
    returns (r: Reply<Book, Call>)
    modifies store
    ensures var k := Key(cfg.name, p, asset);
      k in old(store.books) ==> r == Reply(old(store.books)[k], None, []) && store.books == old(store.books)
    ensures var k := Key(cfg.name, p, asset);
      k !in old(store.books) ==> r.calls == [GetOrderbook(p.second)]
    ensures var k := Key(cfg.name, p, asset);
      k !in old(store.books) && book.Err? ==> r.value == NoBook && r.err == Some(book.error) && store.books == old(store.books)
    ensures var k := Key(cfg.name, p, asset);
      k !in old(store.books) && book.Ok? ==>
        && r.err == None
        && Converted(book.value.bids, r.value.bids) && Converted(book.value.asks, r.value.asks)
        && store.books == old(store.books)[k := r.value]
    ensures store.tickers == old(store.tickers)
  {
    var cached := store.GetOrderbook(cfg.name, p, asset);
    if cached.Err? {
      r := UpdateOrderbook(store, cfg, p, asset, book);
      return;
    }
    return Reply(cached.value, None, []);
  }

  // ---------------------------------------------------------------- account

  /** GetAccountInfo: exactly one currency, "BTC", whose total is the wallet's
      total balance. */
  function GetAccountInfo(cfg: Config, wallet: Result<Wallet>): (r: Reply<AccountInfo, Call>)
    ensures r.calls == [GetWalletBalance] && r.value.exchangeName == cfg.name
    ensures wallet.Err? ==> r.value.currencies == [] && r.err == Some(wallet.error)
    ensures wallet.Ok? ==>
      && r.err == None && |r.value.currencies| == 1
      && r.value.currencies[0].currencyName == "BTC"
      && r.value.currencies[0].totalValue == wallet.value.totalBalance
      && r.value.currencies[0].hold == 0.0
  {
    match wallet
    case Err(e) => Reply(AccountInfo(cfg.name, []), Some(e), [GetWalletBalance])
    case Ok(w) => Reply(AccountInfo(cfg.name, [AccountCurrencyInfo("BTC", w.totalBalance, 0.0)]), None, [GetWalletBalance])
  }

  // ---------------------------------------------------------------- orders

  /** math.Round: the nearest integer, halves rounded away from zero. */
  function Round(x: real): (n: int)
    ensures x - 0.5 <= n as real <= x + 0.5
    ensures n as real == x + 0.5 ==> x >= 0.0
    ensures n as real == x - 0.5 ==> x < 0.0
  {
    if x >= 0.0 then (x + 0.5).Floor else -((-x + 0.5).Floor)
  }

  /** The ad SubmitOrder creates: placeholder details, the pair's second
      currency, the side as its message and the rounded amount as its minimum. */
  function AdParams(p: Pair, side: OrderSide, amount: real): AdCreate {
    AdCreate("USD_in_AUD", 1, 1, "City", "Location", "US", p.second, "-", "Bank", side,
             true, true, true, true, "", "", Round(amount))
  }

  /** A listed ad agrees with the created one on the fifteen fields the venue echoes back. */
  predicate Matches(ad: AdData, params: AdCreate) {
    && ad.priceEquation == params.priceEquation
    && ad.lat == params.latitude as real
    && ad.lon == params.longitude as real
    && ad.city == params.city
    && ad.location == params.location
    && ad.countryCode == params.countryCode
    && ad.currency == params.currency
    && ad.accountInfo == params.accountInfo
    && ad.bankName == params.bankName
    && ad.smsVerificationRequired == params.smsVerificationRequired
    && ad.trackMaxAmount == params.trackMaxAmount
    && ad.requireTrustedByAdvertiser == params.requireTrustedByAdvertiser
    && ad.onlineProvider == params.onlineProvider
    && ad.tradeType == params.tradeType
    && ad.minAmount == FormatInt(params.minAmount)
  }

  /** The position of the last listed ad that matches, if any. */
  function LastMatch(ads: seq<AdData>, params: AdCreate): (r: Option<nat>)
    ensures r.Some? ==> r.value < |ads| && Matches(ads[r.value], params)
    ensures r.Some? ==> forall k :: r.value < k < |ads| ==> !Matches(ads[k], params)
    ensures r.None? ==> forall k :: 0 <= k < |ads| ==> !Matches(ads[k], params)
  {
    if ads == [] then None
    else if Matches(ads[|ads| - 1], params) then Some(|ads| - 1)
    else LastMatch(ads[..|ads| - 1], params)
  }

  /** Looking at one more listed ad: it becomes the match if it matches. */
  lemma LastMatchStep(ads: seq<AdData>, params: AdCreate, i: nat)
    requires i < |ads|
    ensures LastMatch(ads[..i + 1], params)
         == if Matches(ads[i], params) then Some(i) else LastMatch(ads[..i], params)
  {
    assert ads[..i + 1][..i] == ads[..i];
  }

  /** SubmitOrder: create the ad; the venue does not answer with its id, so
      list the ads and take the id of the last one that matches. A failed
      creation returns its error with nothing placed and nothing listed. After
      a creation the order counts as placed even when no listed ad matches;
      several matching ads are not an error. */
  method SubmitOrder(p: Pair, side: OrderSide, orderType: OrderType, amount: real, price: real, clientID: string,
                     created: Option<Error>, ads: Ads) returns (r: Reply<SubmitOrderResponse, Call>)
    ensures created.Some? ==> r == Reply(NotSubmitted, created, [CreateAd(AdParams(p, side, amount))])
    ensures created.None? ==> r.calls == [CreateAd(AdParams(p, side, amount)), Getads] && r.value.isOrderPlaced
    ensures created.None? ==>
      match LastMatch(ads.adList, AdParams(p, side, amount))
      case Some(j) => r.value.orderID == FormatInt(ads.adList[j].adID) && r.err == ads.err
      case None => r.value.orderID == "" && r.err == Some(AdNotFound)
  {
    var params := AdParams(p, side, amount);
    if created.Some? {
      return Reply(NotSubmitted, created, [CreateAd(params)]);
    }
    var response := SubmitOrderResponse(true, "");
    var calls := [CreateAd(params), Getads];
    var list := ads.adList;
    var adID := "";
    for i := 0 to |list|
      invariant adID == match LastMatch(list[..i], params)
                        case Some(j) => FormatInt(list[j].adID)
                        case None => ""
    {
      var ad := list[i];
      LastMatchStep(list, params, i);
      if Matches(ad, params) {
        adID := FormatInt(ad.adID);
      }
    }
    assert list[..|list|] == list;
    if adID != "" {
      response := response.(orderID := adID);
    } else {
      return Reply(response, Some(AdNotFound), calls);
    }
    return Reply(response, ads.err, calls);
  }

  /** The ad the venue lists for a created ad with the given id. */
  function ListedAd(params: AdCreate, id: int): AdData {
    AdData(id, params.priceEquation, params.latitude as real, params.longitude as real, params.city,
           params.location, params.countryCode, params.currency, params.accountInfo, params.bankName,
           params.smsVerificationRequired, params.trackMaxAmount, params.requireTrustedByAdvertiser,
           params.onlineProvider, params.tradeType, FormatInt(params.minAmount))
  }

  /** Round trip: when the venue lists the created ad at position j and no ad
      after it matches, SubmitOrder resolves the order id to that ad's id,
      whatever comes before it. */
  lemma PlacedAdIsFound(p: Pair, side: OrderSide, amount: real, ads: seq<AdData>, j: nat, id: int)
    requires j < |ads| && ads[j] == ListedAd(AdParams(p, side, amount), id)
    requires forall k :: j < k < |ads| ==> !Matches(ads[k], AdParams(p, side, amount))
    ensures LastMatch(ads, AdParams(p, side, amount)) == Some(j)
    ensures FormatInt(ads[LastMatch(ads, AdParams(p, side, amount)).value].adID) == FormatInt(id)
  {
    assert Matches(ads[j], AdParams(p, side, amount));
  }

  /** CancelOrder: the order id goes to DeleteAd unchanged. */
  function CancelOrder(order: OrderCancellation, deleted: Option<Error>): (r: Reply<(), Call>)
    ensures r.calls == [DeleteAd(order.orderID)] && r.err == deleted
  {
    Reply((), deleted, [DeleteAd(order.orderID)])
  }

  /** The status map CancelAllOrders builds: for every failed delete, the ad's
      decimal id mapped to the error text, later failures overwriting earlier
      ones for the same id. deleted(j) is the venue's answer to the j-th delete. */
  function Failures(ads: seq<AdData>, deleted: nat -> Option<Error>): map<string, string> {
    if ads == [] then map[]
    else
      var n := |ads| - 1;
      var m := Failures(ads[..n], deleted);
      if deleted(n).Some? then m[FormatInt(ads[n].adID) := ErrorText(deleted(n).value)] else m
  }

  /** Deleting one more ad adds at most its own entry to the status map. */
  lemma FailuresStep(ads: seq<AdData>, deleted: nat -> Option<Error>, j: nat)
    requires j < |ads|
    ensures Failures(ads[..j + 1], deleted)
         == if deleted(j).Some? then Failures(ads[..j], deleted)[FormatInt(ads[j].adID) := ErrorText(deleted(j).value)]
            else Failures(ads[..j], deleted)
  {
    assert ads[..j + 1][..j] == ads[..j];
  }

  /** CancelAllOrders: list the ads, then delete every one of them whatever
      the earlier deletes did; the overall error is nil once the listing
      succeeded. */
  method CancelAllOrders(ads: Ads, deleted: nat -> Option<Error>) returns (r: Reply<CancelAllOrdersResponse, Call>)
    ensures ads.err.Some? ==> r == Reply(CancelAllOrdersResponse(map[]), ads.err, [Getads])
    ensures ads.err.None? ==>
      && r.err == None
      && |r.calls| == |ads.adList| + 1 && r.calls[0] == Getads
      && forall j :: 0 <= j < |ads.adList| ==> r.calls[j + 1] == DeleteAd(FormatInt(ads.adList[j].adID))
    ensures ads.err.None? ==> r.value.orderStatus == Failures(ads.adList, deleted)
  {
    if ads.err.Some? {
      return Reply(CancelAllOrdersResponse(map[]), ads.err, [Getads]);
    }
    var list := ads.adList;
    var status: map<string, string> := map[];
    var calls := [Getads];
    for j := 0 to |list|
      invariant |calls| == j + 1 && calls[0] == Getads
      invariant forall k :: 0 <= k < j ==> calls[k + 1] == DeleteAd(FormatInt(list[k].adID))
      invariant status == Failures(list[..j], deleted)
    {
      var adIDString := FormatInt(list[j].adID);
      calls := calls + [DeleteAd(adIDString)];
      var err := deleted(j);
      FailuresStep(list, deleted, j);
      if err.Some? {
        var text := ErrorText(err.value);
        status := status[adIDString := text];
      }
    }
    assert list[..|list|] == list;
    return Reply(CancelAllOrdersResponse(status), None, calls);
  }

  /** The j-th delete failed, for an ad whose decimal id is id. */
  predicate FailedAt(ads: seq<AdData>, deleted: nat -> Option<Error>, j: nat, id: string) {
    j < |ads| && deleted(j).Some? && FormatInt(ads[j].adID) == id
  }

  /** Every key of the status map is the id of an ad whose delete failed. */
  lemma {:induction false} FailuresKeyFailed(ads: seq<AdData>, deleted: nat -> Option<Error>, id: string)
    requires id in Failures(ads, deleted)
    ensures exists j: nat :: FailedAt(ads, deleted, j, id)
  {
    var n := |ads| - 1;
    FailuresStep(ads, deleted, n);
    assert ads[..n + 1] == ads;
    if deleted(n).Some? && FormatInt(ads[n].adID) == id {
      assert FailedAt(ads, deleted, n, id);
    } else {
      FailuresKeyFailed(ads[..n], deleted, id);
      var j: nat :| FailedAt(ads[..n], deleted, j, id);
      assert FailedAt(ads, deleted, j, id);
    }
  }

  /** Every ad whose delete failed has its id among the status map's keys. */
  lemma {:induction false} FailedKeyPresent(ads: seq<AdData>, deleted: nat -> Option<Error>, j: nat, id: string)
    requires FailedAt(ads, deleted, j, id)
    ensures id in Failures(ads, deleted)
    decreases |ads|
  {
    var n := |ads| - 1;
    FailuresStep(ads, deleted, n);
    assert ads[..n + 1] == ads;
    if j < n {
      assert FailedAt(ads[..n], deleted, j, id);
      FailedKeyPresent(ads[..n], deleted, j, id);
    }
  }

  /** The status map's keys are exactly the decimal ids of the ads whose delete failed. */
  lemma FailuresKeys(ads: seq<AdData>, deleted: nat -> Option<Error>, id: string)
    ensures id in Failures(ads, deleted) <==> exists j: nat :: FailedAt(ads, deleted, j, id)
  {
    if id in Failures(ads, deleted) {
      FailuresKeyFailed(ads, deleted, id);
    }
    if exists j: nat :: FailedAt(ads, deleted, j, id) {
      var j: nat :| FailedAt(ads, deleted, j, id);
      FailedKeyPresent(ads, deleted, j, id);
    }
  }

  /** Each failed ad's entry holds the text of its own error, unless a later
      failed delete was for an ad with the same id. */
  lemma {:induction false} FailuresValue(ads: seq<AdData>, deleted: nat -> Option<Error>, j: nat)
    requires j < |ads| && deleted(j).Some?
    requires forall k :: j < k < |ads| && deleted(k).Some? ==> ads[k].adID != ads[j].adID
    ensures FormatInt(ads[j].adID) in Failures(ads, deleted)
    ensures Failures(ads, deleted)[FormatInt(ads[j].adID)] == ErrorText(deleted(j).value)
  {
    var n := |ads| - 1;
    if j < n {
      assert ads[..n][j] == ads[j];
      FailuresValue(ads[..n], deleted, j);
      if deleted(n).Some? {
        if FormatInt(ads[n].adID) == FormatInt(ads[j].adID) {
          FormatIntInjective(ads[n].adID, ads[j].adID);
        }
      }
    }
  }
}
