/** The shared market-data stores of the ticker and orderbook packages: one
    process-wide map per kind, keyed by (exchange name, pair, asset type).
    A driver writes a snapshot with Process*, which replaces whatever the key
    held, and reads one back with Get*, which fails when the key is absent. */
module Market {
  import opened Exchange

  /** ticker.Price */
  datatype Price = Price(pair: Pair, last: real, high: real, low: real, bid: real, ask: real, volume: real)

  /** The zero ticker.Price a driver returns beside an error. */
  const NoPrice := Price(Pair("", "", ""), 0.0, 0.0, 0.0, 0.0, 0.0, 0.0)

  /** orderbook.Item */
  datatype Item = Item(price: real, amount: real)

  /** orderbook.Base: bid and ask levels in the order the venue sent them. */
  datatype Book = Book(bids: seq<Item>, asks: seq<Item>)

  const NoBook := Book([], [])

  datatype Key = Key(exchange: string, pair: Pair, asset: AssetType)

  class Store {
    var tickers: map<Key, Price>
    var books: map<Key, Book>

    constructor ()
      ensures tickers == map[] && books == map[]
    {
      tickers := map[];
      books := map[];
    }

    /** ticker.GetTicker */
    function GetTicker(exchange: string, p: Pair, asset: AssetType): (r: Result<Price>)
      reads this
      ensures r.Ok? <==> Key(exchange, p, asset) in tickers
      ensures r.Ok? ==> r.value == tickers[Key(exchange, p, asset)]
      ensures r.Err? ==> r.error == TickerNotFound
    {
      var k := Key(exchange, p, asset);
      if k in tickers then Ok(tickers[k]) else Err(TickerNotFound)
    }

    /** ticker.ProcessTicker */
    method ProcessTicker(exchange: string, p: Pair, price: Price, asset: AssetType)
      modifies this
      ensures tickers == old(tickers)[Key(exchange, p, asset) := price]
      ensures books == old(books)
    {
      tickers := tickers[Key(exchange, p, asset) := price];
    }

    /** orderbook.GetOrderbook */
    function GetOrderbook(exchange: string, p: Pair, asset: AssetType): (r: Result<Book>)
      reads this
      ensures r.Ok? <==> Key(exchange, p, asset) in books
      ensures r.Ok? ==> r.value == books[Key(exchange, p, asset)]
      ensures r.Err? ==> r.error == OrderbookNotFound
    {
      var k := Key(exchange, p, asset);
      if k in books then Ok(books[k]) else Err(OrderbookNotFound)
    }

    /** orderbook.ProcessOrderbook */
    method ProcessOrderbook(exchange: string, p: Pair, book: Book, asset: AssetType)
      modifies this
      ensures books == old(books)[Key(exchange, p, asset) := book]
      ensures tickers == old(tickers)
    {
      books := books[Key(exchange, p, asset) := book];
    }
  }
}
