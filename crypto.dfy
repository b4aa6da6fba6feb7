/**
 * The synchronous valuation script: prices every holding in btc on the
 * binance market with one request each, without any fallback, collects one
 * four-key dictionary per holding and totals the values.
 */
module Crypto {
  import opened Common
  import opened Totals

  /** The module-level quote coin and market. */
  const PAIR: string := "btc"
  const MARKET: string := "binance"

  /** The Crytpowatch client of this script: only the service's base URL. */
  datatype Client = Client(baseUrl: string)

  const DEFAULT_CLIENT := Client("https://api.cryptowat.ch/")

  /** The target of get_market. */
  function MarketUrl(c: Client, market: string): (url: string)
    ensures |url| == |c.baseUrl| + 8 + |market|
    ensures url[..|c.baseUrl|] == c.baseUrl && url[|c.baseUrl|..|c.baseUrl| + 8] == "markets/"
    ensures url[|c.baseUrl| + 8..] == market
  {
    c.baseUrl + "markets/" + market
  }

  /** The target of get_market_price. */
  function MarketPriceUrl(c: Client, market: string, pair: string): (url: string)
    ensures |url| == |MarketUrl(c, market)| + 1 + |pair| + 6
    ensures url[..|MarketUrl(c, market)| + 1] == MarketUrl(c, market) + "/"
    ensures url[|MarketUrl(c, market)| + 1..|url| - 6] == pair
    ensures url[|url| - 6..] == "/price"
  {
    c.baseUrl + "markets/" + market + "/" + pair + "/price"
  }

  /** A price URL extends the market URL by "/", the pair and "/price", and determines the pair. */
  lemma MarketPriceUrlExtendsMarketUrl(c: Client, market: string, pair: string, other: string)
    ensures MarketPriceUrl(c, market, pair) == MarketUrl(c, market) + "/" + pair + "/price"
    ensures MarketPriceUrl(c, market, pair) == MarketPriceUrl(c, market, other) <==> pair == other
  {
    if MarketPriceUrl(c, market, pair) == MarketPriceUrl(c, market, other) {
      assert |pair| == |other|;
    }
  }

  /** get_coin_pair: the coin in lower case followed by the module-level pair "btc". */
  function CoinPair(coin: string): (r: string)
    ensures |r| == |coin| + 3
    ensures r[..|coin|] == Lower(coin) && r[|coin|..] == "btc"
  {
    Lower(coin) + PAIR
  }

  /** The URL requested for one row: always the binance market, always the btc pair. */
  function RowUrl(c: Client, row: Row): string {
    MarketPriceUrl(c, MARKET, CoinPair(row.coin))
  }

  lemma RowUrlIsBinanceBtc(c: Client, row: Row)
    ensures RowUrl(c, row) == c.baseUrl + "markets/binance/" + Lower(row.coin) + "btc/price"
  {
  }

  /** One line of this script's portfolio: four keys, no storage location. */
  datatype Holding = Holding(coin: string, quantity: real, price: real, value: real)

  const HOLDING_KEYS: set<string> := {"coin", "quantity", "price", "value"}

  function ToDict(h: Holding): (d: Dict)
    ensures d.Keys == HOLDING_KEYS
  {
    map["coin" := Text(h.coin), "quantity" := Num(h.quantity), "price" := Num(h.price),
        "value" := Num(h.value)]
  }

  /**
   * The holding one pass of calculate_portfolio appends: result.price of the
   * reply, with no look at "error"; a reply without a result raises.
   */
  function PriceRow(c: Client, o: Oracle, row: Row): (r: Result<Holding>)
    ensures r.Ok? ==> r.value.coin == row.coin && r.value.quantity == row.quantity &&
                      r.value.value == r.value.price * row.quantity
    ensures r.Err? ==> r.error in {FetchFailed(RowUrl(c, row)), NoResult(RowUrl(c, row))}
  {
    var url := RowUrl(c, row);
    match o(url)
    case Unavailable => Err(FetchFailed(url))
    case Json(_, price) =>
      if price.None? then Err(NoResult(url))
      else Ok(QuotedHolding(row, price.value))
  }

  function QuotedHolding(row: Row, p: real): Holding {
    Holding(row.coin, row.quantity, p, p * row.quantity)
  }

  /** A reply with a price gives that price and value price * quantity, whatever its "error" key says. */
  lemma PriceRowQuoted(c: Client, o: Oracle, row: Row, p: real)
    requires o(RowUrl(c, row)).Json? && o(RowUrl(c, row)).price == Some(p)
    ensures PriceRow(c, o, row) == Ok(Holding(row.coin, row.quantity, p, p * row.quantity))
  {
    assert PriceRow(c, o, row) == Ok(QuotedHolding(row, p));
    assert QuotedHolding(row, p) == Holding(row.coin, row.quantity, p, p * row.quantity);
  }

  /** A reply without a result aborts: this script has no fallback. */
  lemma PriceRowFaults(c: Client, o: Oracle, row: Row)
    ensures PriceRow(c, o, row).Err? <==> o(RowUrl(c, row)).Unavailable? || o(RowUrl(c, row)).price.None?
    ensures PriceRow(c, o, row).Err? ==> PriceRow(c, o, row).error in {FetchFailed(RowUrl(c, row)), NoResult(RowUrl(c, row))}
  {
  }

  function Pricer(c: Client, o: Oracle): Row -> Result<Holding> {
    row => PriceRow(c, o, row)
  }

  /** The portfolio calculate_portfolio builds, or the first fault it raises. */
  function PriceAll(c: Client, o: Oracle, rows: seq<Row>): (r: Result<seq<Holding>>)
    ensures r.Ok? ==> |r.value| == |rows|
  {
    TraverseOk(Pricer(c, o), rows);
    Traverse(Pricer(c, o), rows)
  }

  /** calculate_portfolio: one request and one fresh dictionary per row, in row order. */
  method CalculatePortfolio(c: Client, o: Oracle, rows: seq<Row>) returns (r: Result<seq<Dict>>)
    ensures r.Err? <==> PriceAll(c, o, rows).Err?
    ensures r.Err? ==> r.error == PriceAll(c, o, rows).error
    ensures r.Ok? ==> r.value == MapSeq(ToDict, PriceAll(c, o, rows).value)
  {
    var portfolio: seq<Dict> := [];
    for k := 0 to |rows|
      invariant PriceAll(c, o, rows[..k]).Ok?
      invariant portfolio == MapSeq(ToDict, PriceAll(c, o, rows[..k]).value)
    {
      var row := rows[k];
      assert Pricer(c, o)(row) == PriceRow(c, o, row);
      var url := MarketPriceUrl(c, MARKET, CoinPair(row.coin));
      var coinData := o(url);
      if coinData.Unavailable? || coinData.price.None? {
        TraverseStops(Pricer(c, o), rows, k);
        return if coinData.Unavailable? then Err(FetchFailed(url)) else Err(NoResult(url));
      }
      var p := coinData.price.value;
      var entry := map["coin" := Text(row.coin), "quantity" := Num(row.quantity),
                       "price" := Num(p), "value" := Num(p * row.quantity)];
      var h := Holding(row.coin, row.quantity, p, p * row.quantity);
      assert QuotedHolding(row, p) == h;
      assert Pricer(c, o)(row) == Ok(h);
      assert entry == ToDict(h);
      TraverseExtend(Pricer(c, o), rows, k, h);
      portfolio := portfolio + [entry];
    }
    assert rows[..|rows|] == rows;
    return Ok(portfolio);
  }

  /**
   * The built portfolio holds one entry per row, in row order, each with
   * exactly the keys coin, quantity, price and value: coin and quantity from
   * the row, price from the row's quote, value = price * quantity.
   */
  lemma {:induction false} PortfolioEntries(c: Client, o: Oracle, rows: seq<Row>)
    requires PriceAll(c, o, rows).Ok?
    ensures var p := MapSeq(ToDict, PriceAll(c, o, rows).value);
      |p| == |rows| &&
      forall i :: 0 <= i < |rows| ==>
        o(RowUrl(c, rows[i])).Json? && o(RowUrl(c, rows[i])).price.Some? &&
        p[i].Keys == HOLDING_KEYS && "storage" !in p[i] &&
        p[i]["coin"] == Text(rows[i].coin) && p[i]["quantity"] == Num(rows[i].quantity) &&
        p[i]["price"] == Num(o(RowUrl(c, rows[i])).price.value) &&
        p[i]["value"] == Num(o(RowUrl(c, rows[i])).price.value * rows[i].quantity)
  {
    var hs := PriceAll(c, o, rows).value;
    TraverseOk(Pricer(c, o), rows);
    forall i | 0 <= i < |rows|
      ensures o(RowUrl(c, rows[i])).Json? && o(RowUrl(c, rows[i])).price.Some?
      ensures hs[i] == QuotedHolding(rows[i], o(RowUrl(c, rows[i])).price.value)
    {
      assert Pricer(c, o)(rows[i]) == Ok(hs[i]);
    }
  }

  /** The build fails exactly when some row's quote fails, and then with the first such row's fault. */
  lemma {:induction false} PortfolioFault(c: Client, o: Oracle, rows: seq<Row>)
    ensures PriceAll(c, o, rows).Ok? <==> forall i :: 0 <= i < |rows| ==> PriceRow(c, o, rows[i]).Ok?
    ensures PriceAll(c, o, rows).Err? ==>
      exists i :: 0 <= i < |rows| && PriceRow(c, o, rows[i]) == Err(PriceAll(c, o, rows).error) &&
        forall j :: 0 <= j < i ==> PriceRow(c, o, rows[j]).Ok?
  {
    TraverseOk(Pricer(c, o), rows);
    if PriceAll(c, o, rows).Err? {
      TraverseErr(Pricer(c, o), rows);
    }
  }

  /** The holdings of a successful build are the rows' own results, one per row. */
  lemma {:induction false} PricedRows(c: Client, o: Oracle, rows: seq<Row>)
    requires PriceAll(c, o, rows).Ok?
    ensures |PriceAll(c, o, rows).value| == |rows|
    ensures forall i :: 0 <= i < |rows| ==> PriceRow(c, o, rows[i]) == Ok(PriceAll(c, o, rows).value[i])
  {
    var hs := PriceAll(c, o, rows).value;
    TraverseOk(Pricer(c, o), rows);
    forall i | 0 <= i < |rows|
      ensures PriceRow(c, o, rows[i]) == Ok(hs[i])
    {
      assert Pricer(c, o)(rows[i]) == Ok(hs[i]);
    }
  }

  /** Every entry of a built portfolio has a numeric value: the row's quote times its quantity. */
  lemma {:induction false} PortfolioValues(c: Client, o: Oracle, rows: seq<Row>)
    requires PriceAll(c, o, rows).Ok?
    ensures var hs := PriceAll(c, o, rows).value;
      |hs| == |rows| && AllValued(MapSeq(ToDict, hs)) &&
      forall i :: 0 <= i < |hs| ==> ValueOf(ToDict(hs[i])) == hs[i].price * rows[i].quantity
  {
    PricedRows(c, o, rows);
  }

  /** The total of a built portfolio is the sum of its values; an empty holdings list raises. */
  lemma {:induction false} PortfolioTotal(c: Client, o: Oracle, rows: seq<Row>)
    requires PriceAll(c, o, rows).Ok?
    ensures AllValued(MapSeq(ToDict, PriceAll(c, o, rows).value))
    ensures var p := MapSeq(ToDict, PriceAll(c, o, rows).value);
      (Total(p).Err? <==> rows == []) &&
      (rows != [] ==> Total(p) == Ok(Sum(Values(p))))
  {
    PortfolioValues(c, o, rows);
    TotalIsSum(MapSeq(ToDict, PriceAll(c, o, rows).value));
  }
}
