# Venue drivers: HuobiHadax and LocalBitcoins

This project models two venue drivers of a multi-venue cryptocurrency
trading bot and proves properties of the model. Each driver turns one
venue's REST answers into the bot's common trading model: tradable pairs,
tickers, orderbooks, account balances, order submission and cancellation.

- `decimal.dfy` (module `Decimal`): base-10 formatting and parsing of
  64-bit integers, following Go's `strconv.FormatInt(x, 10)` and
  `strconv.ParseInt(s, 10, 64)`. Both drivers turn ids into text and back
  with these. Proves the format/parse round trip and that formatting is
  injective.
- `exchange.dfy` (module `Exchange`): the shared types. These are
  currency pairs, the driver configuration, order sides and types, the
  responses, and the errors with their texts. `Reply` is Go's
  `(value, error)` pair together with the REST calls the operation issued,
  in order.
- `market.dfy` (module `Market`): the shared ticker and orderbook stores, a
  `class Store` with one map per kind keyed by exchange name, pair and
  asset type. Writing replaces the entry, and reading an absent key fails.
- `huobihadax.dfy` (module `HuobiHadax`) and `localbitcoins.dfy` (module
  `LocalBitcoins`): the two drivers.

Each REST call is an input to the operation that makes it:
- a call made once is a `Result` (the decoded answer or an error);
- a call made once per element of a loop is a function from the attempt
  number to the answer.

Every operation returns the calls it issued. This is how the contracts say
"no call was made", "every ad was deleted" and "the loop stopped at the
first failure". The drivers' configured fields (name, enabled pairs, the
HuobiHadax account id) are values, because none of the modelled
operations changes them.

Several behaviours of the code are looser than a stricter driver would
be. The model keeps them as the code has them:
- LocalBitcoins SubmitOrder takes the id of the last listed ad that
  matches the created one. A stricter driver would fail when several ads
  match; this code does not. `IsOrderPlaced` stays true when no ad matches.
- HuobiHadax CancelAllOrders stops at the first batch that fails. It does
  not go on with the remaining pairs, and its status map stays empty.
- Fetch* refresh a stored entry only when it is absent. They never check
  how old it is.
- HuobiHadax GetAccountID returns the fetched id but never stores it, so
  every call with an unconfigured id asks the venue again.
- Orderbook levels are kept in the order the venue sent them. Neither
  driver sorts or checks them.

## Model

| member | source | states |
|---|---|---|
| Decimal.FormatInt | exchanges/huobihadax/huobihadax_wrapper.go:210 | the decimal text of an id is non-empty, all digits after an optional leading minus |
| Decimal.ParseInt | exchanges/huobihadax/huobihadax_wrapper.go:331 | a text parses exactly when, after one optional sign, it is a non-empty run of digits whose signed value fits int64, and then to that signed value; it is a range error exactly when its leading digits already exceed the uint64 maximum, or it is all digits with a signed value outside int64; otherwise a syntax error |
| Decimal.FormatParseRoundTrip | exchanges/huobihadax/huobihadax_wrapper.go:331 | every int64 formatted by FormatInt parses back to itself |
| Decimal.FormatIntInjective | exchanges/localbitcoins/localbitcoins_wrapper.go:312-315 | two ids with the same decimal text are equal, so status-map keys identify ads |
| Exchange.ErrorText | exchanges/localbitcoins/localbitcoins_wrapper.go:315 | a venue's error text passes through verbatim; the drivers' own errors carry their messages ("no account ID fetched", "Unsupported order type", "<count> orders failed to cancel", "Ad placed, but not found via API") and strconv's text for a rejected number |
| Exchange.FailedCountTextInjective | exchanges/huobihadax/huobihadax_wrapper.go:354 | two failed-orders messages are equal only when their counts are |
| Exchange.ParseOrderID | exchanges/huobihadax/huobihadax_wrapper.go:331-335 | an order id is accepted exactly when it parses as a base-10 int64; otherwise the error records the text and whether it was out of range |
| Market.Store.GetTicker | exchanges/huobihadax/huobihadax_wrapper.go:157 | succeeds exactly when the key is stored and then returns the stored ticker; otherwise a not-found error |
| Market.Store.ProcessTicker | exchanges/huobihadax/huobihadax_wrapper.go:151 | replaces the ticker under the key and leaves the orderbooks alone |
| Market.Store.GetOrderbook | exchanges/huobihadax/huobihadax_wrapper.go:166 | succeeds exactly when the key is stored and then returns the stored book; otherwise a not-found error |
| Market.Store.ProcessOrderbook | exchanges/huobihadax/huobihadax_wrapper.go:191 | replaces the book under the key and leaves the tickers alone |
| HuobiHadax.FetchTradablePairs | exchanges/huobihadax/huobihadax_wrapper.go:104-116 | one GetSymbols call; on error only the error; otherwise one "base-quote" text per symbol, same count, same order |
| HuobiHadax.PairNameSplits | exchanges/huobihadax/huobihadax_wrapper.go:112 | a pair text splits back into its symbol when the base currency has no "-" |
| HuobiHadax.UpdateTicker | exchanges/huobihadax/huobihadax_wrapper.go:130-153 | one GetMarketDetailMerged call; on error nothing stored; otherwise close, high, low, volume and the first bid/ask (0 when absent) are stored under the key and returned |
| HuobiHadax.FetchTicker | exchanges/huobihadax/huobihadax_wrapper.go:156-162 | a stored ticker is returned with no call and no change; on a miss it behaves as UpdateTicker |
| HuobiHadax.ToItems | exchanges/huobihadax/huobihadax_wrapper.go:181-189 | one level per depth row, in order, price from column 0 and amount from column 1 |
| HuobiHadax.UpdateOrderbook | exchanges/huobihadax/huobihadax_wrapper.go:174-193 | one GetDepth call; on error nothing stored; otherwise both sides converted row by row, stored under the key and returned |
| HuobiHadax.FetchOrderbook | exchanges/huobihadax/huobihadax_wrapper.go:165-171 | a stored book is returned with no call and no change; on a miss it behaves as UpdateOrderbook |
| HuobiHadax.GetAccountID | exchanges/huobihadax/huobihadax_wrapper.go:199-217 | a configured id is returned with no call; otherwise one GetAccounts call and its error, or "no account ID fetched" for an empty list, or FormatInt of the first account's id, which parses back to that id |
| HuobiHadax.LastBalanceAbsent | exchanges/huobihadax/huobihadax_wrapper.go:242-245 | a currency with no balance row has zero available and zero held |
| HuobiHadax.FoldBalances | exchanges/huobihadax/huobihadax_wrapper.go:240-252 | one entry per distinct currency; Avail is the last "trade" row's balance and Hold the last other row's (0 when none) |
| HuobiHadax.ListBalances | exchanges/huobihadax/huobihadax_wrapper.go:254-262 | in any order, each folded currency appears exactly once with total = Avail + Hold and hold = Hold |
| HuobiHadax.GetAccountInfo | exchanges/huobihadax/huobihadax_wrapper.go:221-266 | the exchange name is always set; an account-id or balance error returns no currencies and that error; otherwise one GetAccountBalance call for that id and the folded balances |
| HuobiHadax.OrderTypeCode | exchanges/huobihadax/huobihadax_wrapper.go:294-306 | a code exists exactly for buy/sell with market/limit, and the code determines side and type, so the four codes are distinct |
| HuobiHadax.SubmitOrder | exchanges/huobihadax/huobihadax_wrapper.go:283-321 | an unsupported combination returns "Unsupported order type" with no call; otherwise one SpotNewOrder carrying the code, the amount, the account, source "api", the lower-cased pair text as symbol, and the price only for limit orders; the order id is FormatInt of the venue's id when that is positive and "" otherwise, and parses back to it; placed iff no error; the venue's error is returned |
| HuobiHadax.CancelOrder | exchanges/huobihadax/huobihadax_wrapper.go:330-340 | an id that is not a base-10 int64 returns the parse error with no call; otherwise one CancelExistingOrder for the parsed id and the venue's error |
| HuobiHadax.SubmittedOrderCancels | exchanges/huobihadax/huobihadax_wrapper.go:331-337 | an order id SubmitOrder reports is accepted by CancelOrder and cancels that very order |
| HuobiHadax.CancelAllOrders | exchanges/huobihadax/huobihadax_wrapper.go:343-359 | the status map is empty; batch calls go to a prefix of the enabled spot pairs in order; every call before the last succeeded; no error iff every pair was visited without failure; otherwise the error or failed count of the last batch |
| LocalBitcoins.FetchTradablePairs | exchanges/localbitcoins/localbitcoins_wrapper.go:107-119 | one GetTradableCurrencies call; on error only the error; otherwise one text per currency, "BTC" followed by the currency, same order |
| LocalBitcoins.UpdateTicker | exchanges/localbitcoins/localbitcoins_wrapper.go:133-150 | one GetTicker call; on error nothing stored; otherwise every enabled pair gets a ticker whose last is its second currency's 24h average and whose volume is its BTC volume (0 when absent); the result is the stored entry for the requested pair, or not-found |
| LocalBitcoins.FetchTicker | exchanges/localbitcoins/localbitcoins_wrapper.go:153-159 | a stored ticker is returned with no call; on a miss the update runs, and a pair that is not enabled still ends in not-found |
| LocalBitcoins.ToItems | exchanges/localbitcoins/localbitcoins_wrapper.go:178-186 | one level per offer, in order, price kept and amount divided by price, so amount × price gives back the offer's amount |
| LocalBitcoins.UpdateOrderbook | exchanges/localbitcoins/localbitcoins_wrapper.go:171-190 | one GetOrderbook call for the pair's second currency; on error nothing stored; otherwise both sides converted, stored under the key and returned |
| LocalBitcoins.FetchOrderbook | exchanges/localbitcoins/localbitcoins_wrapper.go:162-168 | a stored book is returned with no call and no change; on a miss it behaves as UpdateOrderbook |
| LocalBitcoins.GetAccountInfo | exchanges/localbitcoins/localbitcoins_wrapper.go:194-207 | one GetWalletBalance call; on error no currencies; otherwise exactly one currency "BTC" with the wallet's total balance and nothing held |
| LocalBitcoins.Round | exchanges/localbitcoins/localbitcoins_wrapper.go:245 | the nearest integer, within one half of the amount, with halves going away from zero |
| LocalBitcoins.LastMatch | exchanges/localbitcoins/localbitcoins_wrapper.go:259-279 | the position of a listed ad matching the created one on all fifteen echoed fields, with no match after it; none exactly when no ad matches |
| LocalBitcoins.SubmitOrder | exchanges/localbitcoins/localbitcoins_wrapper.go:224-288 | a failed CreateAd returns its error with nothing placed and no listing; otherwise CreateAd then Getads and placed; the order id is the decimal id of the last matching ad with Getads's error, or "" with "Ad placed, but not found via API" |
| LocalBitcoins.PlacedAdIsFound | exchanges/localbitcoins/localbitcoins_wrapper.go:261-278 | when the created ad is listed with no matching ad after it, the reconciliation picks it, so SubmitOrder reports its decimal id, whatever precedes it |
| LocalBitcoins.CancelOrder | exchanges/localbitcoins/localbitcoins_wrapper.go:297-299 | one DeleteAd call with the order id unchanged and the venue's error |
| LocalBitcoins.CancelAllOrders | exchanges/localbitcoins/localbitcoins_wrapper.go:302-320 | a Getads error returns an empty map and that error after one call; otherwise every listed ad is deleted by decimal id, in order, whatever the earlier deletes did; the status map records the failures; the error is nil |
| LocalBitcoins.FailuresKeys | exchanges/localbitcoins/localbitcoins_wrapper.go:311-317 | the status map's keys are exactly the decimal ids of the ads whose delete failed |
| LocalBitcoins.FailuresValue | exchanges/localbitcoins/localbitcoins_wrapper.go:311-317 | a failed ad's entry holds its own error text unless a later failed delete had the same id |

## Left out

- Setup, SetDefaults, Start and Run: configuration loading, websocket and rate-limiter setup, logging and goroutine start-up are lifecycle code with no normalisation logic.
- UpdateTradablePairs: it only passes FetchTradablePairs's result to UpdatePairs in the shared exchange package, which is not part of this model.
- Request rate limiting, HTTP, request signing and JSON decoding: each REST call is an input value instead.
- The package-level mutex around GetAccountID and all concurrency: the model is sequential.
- FormatExchangeCurrency: the recorded calls carry the pair itself rather than the venue's formatted symbol text.
- The ticker and orderbook packages' internals (timestamps, validation, their error texts): the store is a plain map whose writes replace the entry, and the not-found error texts are stand-ins.
- The stub operations (GetFundingHistory, GetExchangeHistory, ModifyOrder, GetOrderInfo, GetDepositAddress, the withdrawals, GetWebsocket) return fixed "not supported"/"not yet implemented" errors. GetFeeByType and GetWithdrawCapabilities delegate to code that is not part of this model.
- Floating point: amounts and prices are exact reals, so sums such as TotalValue = Avail + Hold and the divisions do not round.
- LocalBitcoins.ToItems: a zero price gives amount 0, where Go's float division gives an infinity or NaN.
- LocalBitcoins.Round: Go's int() conversion of a rounded float too large for an int is not modelled; the model keeps the exact integer.
- HuobiHadax.SubmitOrder: the account id is the parameter clientAccount, the value strconv.ParseInt(clientID, 0, 64) leaves. The base-0 parse itself and its discarded error are not modelled.
- HuobiHadax.SubmitOrder: the symbol is lower-cased for ASCII letters only, where Go's strings.ToLower also folds other Unicode letters.
- HuobiHadax.ToItems: a depth row with fewer than two entries makes the Go code panic. The model requires every row to have at least two.
- Exchange.ErrorText: strconv's quoting of the rejected text is written as plain quotes, without Go's escaping of special characters.
- The side text LocalBitcoins puts in the ad's message is kept as the side itself.
- Exchange.OrderSide and Exchange.OrderType: in Go these are strings compared with ==, so a side is Buy whenever its text is Buy's. The model has an enumeration whose Other variants are meant for every other text, but it does not enforce that: an OtherSide carrying Buy's text would be refused as unsupported where Go accepts it. The texts of the named values are defined in the shared exchange package, which is not part of this model.
