/**
 * The asynchronous valuation script: prices each holding in the client's
 * reference coin ("paircoin"), directly or through the "btc" bridge, collects
 * one dictionary per holding, totals the values and converts the total to USD
 * through one more quote.
 */
module AsyncCrypto {
  import opened Common
  import opened Totals

  /** The Crytpowatch client: where and on which market the prices are looked up. */
  datatype Client = Client(baseUrl: string, market: string, paircoin: string)

  const DEFAULT_CLIENT := Client("https://api.cryptowat.ch/", "binance", "xlm")

  /** The bridge coin of the two-hop price. */
  const BRIDGE: string := "btc"

  /** The part of every price URL before the pair. */
  function PricePrefix(c: Client): string {
    c.baseUrl + "markets/" + c.market + "/"
  }

  /** get_market_price_url: the prefix, then the pair, then "/price". */
  function PriceUrl(c: Client, pair: string): (url: string)
    ensures |url| == |PricePrefix(c)| + |pair| + 6
    ensures url[..|PricePrefix(c)|] == PricePrefix(c)
    ensures url[|PricePrefix(c)|..|url| - 6] == pair
    ensures url[|url| - 6..] == "/price"
  {
    c.baseUrl + "markets/" + c.market + "/" + pair + "/price"
  }

  /** Reads the pair back out of a price URL of client c. */
  function PairOf(c: Client, url: string): Option<string> {
    var n := |PricePrefix(c)|;
    if |url| >= n + 6 && url[..n] == PricePrefix(c) && url[|url| - 6..] == "/price"
    then Some(url[n..|url| - 6])
    else None
  }

  /** Every pair is recovered from its URL, so distinct pairs are asked at distinct URLs. */
  lemma PriceUrlRoundTrip(c: Client, pair: string, other: string)
    ensures PairOf(c, PriceUrl(c, pair)) == Some(pair)
    ensures PriceUrl(c, pair) == PriceUrl(c, other) <==> pair == other
  {
    if PriceUrl(c, pair) == PriceUrl(c, other) {
      assert PairOf(c, PriceUrl(c, other)) == Some(other);
    }
  }

  /** get_coin_pair: the coin in lower case followed by the quote coin. */
  function CoinPair(coin: string, pair: string): (r: string)
    ensures |r| == |coin| + |pair|
    ensures r[..|coin|] == Lower(coin) && r[|coin|..] == pair
  {
    Lower(coin) + pair
  }

  /** The shortcut test of calculate_portfolio: the pair equals the coin written twice. */
  predicate SelfPair(c: Client, coin: string) {
    CoinPair(coin, c.paircoin) == Lower(coin) + Lower(coin)
  }

  /** The shortcut fires exactly when the paircoin is the lower-cased coin. */
  lemma SelfPairIff(c: Client, coin: string)
    ensures SelfPair(c, coin) <==> c.paircoin == Lower(coin)
  {
    PrefixCancel(Lower(coin), c.paircoin, Lower(coin));
  }

  /** The test compares against the paircoin as configured: one with a capital letter never matches. */
  lemma SelfPairNeedsLowerCasePaircoin(c: Client, coin: string, k: nat)
    requires k < |c.paircoin| && IsUpper(c.paircoin[k])
    ensures !SelfPair(c, coin)
  {
    SelfPairIff(c, coin);
  }

  /** One line of the portfolio, with the five keys of the source's dictionaries. */
  datatype PricedEntry = PricedEntry(coin: string, quantity: real, price: real, value: real, storage: string)

  const ENTRY_KEYS: set<string> := {"coin", "quantity", "price", "value", "storage"}

  function ToDict(e: PricedEntry): (d: Dict)
    ensures d.Keys == ENTRY_KEYS
  {
    map["coin" := Text(e.coin), "quantity" := Num(e.quantity), "price" := Num(e.price),
        "value" := Num(e.value), "storage" := Text(e.storage)]
  }

  function DirectUrl(c: Client, row: Row): string {
    PriceUrl(c, CoinPair(row.coin, c.paircoin))
  }

  function CoinBridgeUrl(c: Client, row: Row): string {
    PriceUrl(c, CoinPair(row.coin, BRIDGE))
  }

  function PaircoinBridgeUrl(c: Client): string {
    PriceUrl(c, CoinPair(c.paircoin, BRIDGE))
  }

  /**
   * calculate_btc_equivalent: the coin's price in btc times the inverse of the
   * paircoin's price in btc. Neither reply is checked for "error"; a missing
   * result or a zero paircoin price raises.
   */
  function BtcEquivalent(c: Client, o: Oracle, row: Row): (r: Result<PricedEntry>)
    ensures r.Ok? ==> r.value.coin == row.coin && r.value.quantity == row.quantity && r.value.storage == row.storage
    ensures r.Ok? ==> o(PaircoinBridgeUrl(c)).Json? && o(PaircoinBridgeUrl(c)).price.Some? &&
                      o(PaircoinBridgeUrl(c)).price.value != 0.0
    ensures r.Err? ==> r.error in {FetchFailed(CoinBridgeUrl(c, row)), FetchFailed(PaircoinBridgeUrl(c)),
                                   NoResult(CoinBridgeUrl(c, row)), NoResult(PaircoinBridgeUrl(c)), ZeroDivision}
  {
    var coinUrl := CoinBridgeUrl(c, row);
    var pairUrl := PaircoinBridgeUrl(c);
    match o(coinUrl)
    case Unavailable => Err(FetchFailed(coinUrl))
    case Json(_, a) =>
      match o(pairUrl)
      case Unavailable => Err(FetchFailed(pairUrl))
      case Json(_, b) =>
        if a.None? then Err(NoResult(coinUrl))
        else if b.None? then Err(NoResult(pairUrl))
        else if b.value == 0.0 then Err(ZeroDivision)
        else Ok(BridgeEntry(row, a.value, b.value))
  }

  /** The dictionary calculate_btc_equivalent returns, for bridge prices a and b. */
  function BridgeEntry(row: Row, a: real, b: real): PricedEntry
    requires b != 0.0
  {
    PricedEntry(row.coin, row.quantity, a * (1.0 / b), (row.quantity * a) * (1.0 / b), row.storage)
  }

  /** The five keys the loop writes for a direct quote p. */
  function DirectEntry(row: Row, p: real): PricedEntry {
    PricedEntry(row.coin, row.quantity, p, p * row.quantity, row.storage)
  }

  /** The priced entry one pass of calculate_portfolio's loop appends for a row. */
  function Resolve(c: Client, o: Oracle, row: Row): (r: Result<PricedEntry>)
    ensures SelfPair(c, row.coin) ==> r.Ok?
    ensures r.Ok? ==> r.value.coin == row.coin && r.value.quantity == row.quantity && r.value.storage == row.storage
  {
    if SelfPair(c, row.coin) then
      Ok(PricedEntry(row.coin, row.quantity, 1.0, row.quantity, row.storage))
    else
      var url := DirectUrl(c, row);
      match o(url)
      case Unavailable => Err(FetchFailed(url))
      case Json(hasError, price) =>
        if hasError then BtcEquivalent(c, o, row)
        else if price.None? then Err(NoResult(url))
        else Ok(DirectEntry(row, price.value))
  }

  /** The URLs one pass of the loop fetches, in order. */
  function Fetched(c: Client, o: Oracle, row: Row): (r: seq<string>)
    ensures |r| <= 3
    ensures r == [] <==> SelfPair(c, row.coin)
    ensures r != [] ==> r[0] == DirectUrl(c, row)
    ensures |r| > 1 ==> r[1] == CoinBridgeUrl(c, row) && o(DirectUrl(c, row)).Json? && o(DirectUrl(c, row)).hasError
  {
    if SelfPair(c, row.coin) then []
    else if o(DirectUrl(c, row)).Json? && o(DirectUrl(c, row)).hasError then
      if o(CoinBridgeUrl(c, row)).Unavailable? then [DirectUrl(c, row), CoinBridgeUrl(c, row)]
      else [DirectUrl(c, row), CoinBridgeUrl(c, row), PaircoinBridgeUrl(c)]
    else [DirectUrl(c, row)]
  }

  /** A coin priced in itself: price 1.0, value the quantity, and no request at all. */
  lemma ResolveSelfPair(c: Client, o: Oracle, row: Row)
    requires c.paircoin == Lower(row.coin)
    ensures Resolve(c, o, row) == Ok(PricedEntry(row.coin, row.quantity, 1.0, row.quantity, row.storage))
    ensures Fetched(c, o, row) == []
  {
    SelfPairIff(c, row.coin);
  }

  /** A direct quote p without "error": price p and value p times the quantity. */
  lemma ResolveDirect(c: Client, o: Oracle, row: Row, p: real)
    requires c.paircoin != Lower(row.coin)
    requires o(DirectUrl(c, row)) == Json(false, Some(p))
    ensures Resolve(c, o, row) == Ok(PricedEntry(row.coin, row.quantity, p, p * row.quantity, row.storage))
    ensures Fetched(c, o, row) == [DirectUrl(c, row)]
  {
    SelfPairIff(c, row.coin);
    assert Resolve(c, o, row) == Ok(DirectEntry(row, p));
    assert DirectEntry(row, p) == PricedEntry(row.coin, row.quantity, p, p * row.quantity, row.storage);
  }

  /** A direct reply without "error" and without a result aborts; there is no fallback for it. */
  lemma ResolveNoResult(c: Client, o: Oracle, row: Row)
    requires c.paircoin != Lower(row.coin)
    requires o(DirectUrl(c, row)) == Json(false, None)
    ensures Resolve(c, o, row) == Err(NoResult(DirectUrl(c, row)))
  {
    SelfPairIff(c, row.coin);
  }

  /** A direct reply with "error": two bridge quotes a and b give price a * (1/b). */
  lemma ResolveBridge(c: Client, o: Oracle, row: Row, a: real, b: real)
    requires c.paircoin != Lower(row.coin)
    requires o(DirectUrl(c, row)).Json? && o(DirectUrl(c, row)).hasError
    requires o(CoinBridgeUrl(c, row)).Json? && o(CoinBridgeUrl(c, row)).price == Some(a)
    requires o(PaircoinBridgeUrl(c)).Json? && o(PaircoinBridgeUrl(c)).price == Some(b)
    ensures b == 0.0 ==> Resolve(c, o, row) == Err(ZeroDivision)
    ensures b != 0.0 ==>
      Resolve(c, o, row) == Ok(PricedEntry(row.coin, row.quantity, a * (1.0 / b), (row.quantity * a) * (1.0 / b), row.storage))
    ensures Fetched(c, o, row) == [DirectUrl(c, row), CoinBridgeUrl(c, row), PaircoinBridgeUrl(c)]
  {
    SelfPairIff(c, row.coin);
    if b != 0.0 {
      assert Resolve(c, o, row) == Ok(BridgeEntry(row, a, b));
      assert BridgeEntry(row, a, b) ==
        PricedEntry(row.coin, row.quantity, a * (1.0 / b), (row.quantity * a) * (1.0 / b), row.storage);
    }
  }

  /** Every priced entry copies coin, quantity and storage from its row, and value = quantity * price. */
  lemma ResolvedEntry(c: Client, o: Oracle, row: Row)
    requires Resolve(c, o, row).Ok?
    ensures var e := Resolve(c, o, row).value;
      e.coin == row.coin && e.quantity == row.quantity && e.storage == row.storage &&
      e.value == e.quantity * e.price
  {
    var e := Resolve(c, o, row).value;
    if !SelfPair(c, row.coin) && o(DirectUrl(c, row)).hasError {
      var a, b := o(CoinBridgeUrl(c, row)).price.value, o(PaircoinBridgeUrl(c)).price.value;
      assert e.value == (row.quantity * a) * (1.0 / b);
      assert (row.quantity * a) * (1.0 / b) == row.quantity * (a * (1.0 / b));
    }
  }

  /**
   * The faults of one pass. A coin priced in itself never fails. Otherwise an
   * unusable direct reply is fatal at once, a direct reply without "error" and
   * without a result raises, and a reply with "error" fails exactly when the
   * bridge does; a failed first bridge request means the second is never sent.
   */
  lemma ResolveFaults(c: Client, o: Oracle, row: Row)
    ensures Resolve(c, o, row).Err? <==>
      c.paircoin != Lower(row.coin) &&
      (o(DirectUrl(c, row)).Unavailable? ||
       (!o(DirectUrl(c, row)).hasError && o(DirectUrl(c, row)).price.None?) ||
       (o(DirectUrl(c, row)).hasError && BtcEquivalent(c, o, row).Err?))
    ensures c.paircoin != Lower(row.coin) && o(DirectUrl(c, row)).Unavailable? ==>
      Resolve(c, o, row) == Err(FetchFailed(DirectUrl(c, row)))
    ensures c.paircoin != Lower(row.coin) && o(DirectUrl(c, row)).Json? && o(DirectUrl(c, row)).hasError ==>
      Resolve(c, o, row) == BtcEquivalent(c, o, row)
    ensures c.paircoin != Lower(row.coin) && o(DirectUrl(c, row)).Json? && o(DirectUrl(c, row)).hasError &&
            o(CoinBridgeUrl(c, row)).Unavailable? ==>
      Fetched(c, o, row) == [DirectUrl(c, row), CoinBridgeUrl(c, row)]
  {
    SelfPairIff(c, row.coin);
  }

  /**
   * The faults of the two-hop price, in the order Python raises them: both
   * replies are fetched and parsed before either result is read, the coin's
   * result is read before the paircoin's, and a zero paircoin price divides by zero.
   */
  lemma BridgeFaults(c: Client, o: Oracle, row: Row)
    ensures BtcEquivalent(c, o, row).Err? <==>
      o(CoinBridgeUrl(c, row)).Unavailable? || o(PaircoinBridgeUrl(c)).Unavailable? ||
      o(CoinBridgeUrl(c, row)).price.None? || o(PaircoinBridgeUrl(c)).price.None? ||
      o(PaircoinBridgeUrl(c)).price.value == 0.0
    ensures o(CoinBridgeUrl(c, row)).Unavailable? ==>
      BtcEquivalent(c, o, row) == Err(FetchFailed(CoinBridgeUrl(c, row)))
    ensures o(CoinBridgeUrl(c, row)).Json? && o(PaircoinBridgeUrl(c)).Unavailable? ==>
      BtcEquivalent(c, o, row) == Err(FetchFailed(PaircoinBridgeUrl(c)))
    ensures o(CoinBridgeUrl(c, row)).Json? && o(PaircoinBridgeUrl(c)).Json? &&
            o(CoinBridgeUrl(c, row)).price.None? ==>
      BtcEquivalent(c, o, row) == Err(NoResult(CoinBridgeUrl(c, row)))
    ensures o(CoinBridgeUrl(c, row)).Json? && o(PaircoinBridgeUrl(c)).Json? &&
            o(CoinBridgeUrl(c, row)).price.Some? && o(PaircoinBridgeUrl(c)).price.None? ==>
      BtcEquivalent(c, o, row) == Err(NoResult(PaircoinBridgeUrl(c)))
  {
  }

  /** The result depends on the service only through the URLs fetched. */
  lemma OracleLocality(c: Client, o1: Oracle, o2: Oracle, row: Row)
    requires forall i :: 0 <= i < |Fetched(c, o1, row)| ==> o1(Fetched(c, o1, row)[i]) == o2(Fetched(c, o1, row)[i])
    ensures Fetched(c, o2, row) == Fetched(c, o1, row)
    ensures Resolve(c, o2, row) == Resolve(c, o1, row)
  {
    var f := Fetched(c, o1, row);
    if !SelfPair(c, row.coin) {
      assert f[0] == DirectUrl(c, row);
      if o1(DirectUrl(c, row)).Json? && o1(DirectUrl(c, row)).hasError {
        assert f[1] == CoinBridgeUrl(c, row);
        if o1(CoinBridgeUrl(c, row)).Json? {
          assert f[2] == PaircoinBridgeUrl(c);
        }
      }
    }
  }

  function Resolver(c: Client, o: Oracle): Row -> Result<PricedEntry> {
    row => Resolve(c, o, row)
  }

  /** The portfolio calculate_portfolio builds, or the first fault it raises. */
  function ResolveAll(c: Client, o: Oracle, rows: seq<Row>): (r: Result<seq<PricedEntry>>)
    ensures r.Ok? ==> |r.value| == |rows|
  {
    TraverseOk(Resolver(c, o), rows);
    Traverse(Resolver(c, o), rows)
  }

  /** add_to_portfolio: appends a copy of the keyword dictionary; earlier entries stay as they were. */
  function AddToPortfolio(portfolio: seq<Dict>, kwargs: Dict): (r: seq<Dict>)
    ensures |r| == |portfolio| + 1 && r[..|portfolio|] == portfolio && r[|portfolio|] == kwargs
  {
    portfolio + [kwargs]
  }

  /**
   * calculate_portfolio: one pass per row over a scratch dictionary that is
   * overwritten key by key, or replaced by the bridge result, then copied into
   * the portfolio. Every key of the copy is written in its own pass.
   */
  method CalculatePortfolio(c: Client, o: Oracle, rows: seq<Row>) returns (r: Result<seq<Dict>>)
    ensures r.Err? <==> ResolveAll(c, o, rows).Err?
    ensures r.Err? ==> r.error == ResolveAll(c, o, rows).error
    ensures r.Ok? ==> r.value == MapSeq(ToDict, ResolveAll(c, o, rows).value)
  {
    var portfolio: seq<Dict> := [];
    var insertion: Dict := map[];
    for k := 0 to |rows|
      invariant insertion.Keys <= ENTRY_KEYS
      invariant ResolveAll(c, o, rows[..k]).Ok?
      invariant portfolio == MapSeq(ToDict, ResolveAll(c, o, rows[..k]).value)
    {
      var row := rows[k];
      SelfPairIff(c, row.coin);
      insertion := insertion["coin" := Text(row.coin)];
      insertion := insertion["quantity" := Num(row.quantity)];
      insertion := insertion["storage" := Text(row.storage)];
      var pair := CoinPair(row.coin, c.paircoin);
      ghost var entry: PricedEntry;
      if pair == Lower(row.coin) + Lower(row.coin) {
        insertion := insertion["price" := Num(1.0)];
        insertion := insertion["value" := Num(row.quantity)];
        entry := PricedEntry(row.coin, row.quantity, 1.0, row.quantity, row.storage);
        ScratchFilled(insertion, entry);
        ResolveSelfPair(c, o, row);
      } else {
        var url := PriceUrl(c, pair);
        var coinData := o(url);
        ResolveFaults(c, o, row);
        if coinData.Unavailable? {
          StepErr(c, o, rows, k);
          return Err(FetchFailed(url));
        }
        if coinData.hasError {
          var equivalent := BtcEquivalent(c, o, row);
          if equivalent.Err? {
            StepErr(c, o, rows, k);
            return Err(equivalent.error);
          }
          insertion := ToDict(equivalent.value);
          entry := equivalent.value;
        } else {
          if coinData.price.None? {
            ResolveNoResult(c, o, row);
            StepErr(c, o, rows, k);
            return Err(NoResult(url));
          }
          var p := coinData.price.value;
          insertion := insertion["price" := Num(p)];
          insertion := insertion["value" := Num(p * row.quantity)];
          entry := PricedEntry(row.coin, row.quantity, p, p * row.quantity, row.storage);
          ScratchFilled(insertion, entry);
          ResolveDirect(c, o, row, p);
        }
      }
      StepOk(c, o, rows, k, entry);
      portfolio := AddToPortfolio(portfolio, insertion);
    }
    assert rows[..|rows|] == rows;
    return Ok(portfolio);
  }

  /** A row that resolves extends the portfolio of the rows before it by its entry. */
  lemma StepOk(c: Client, o: Oracle, rows: seq<Row>, k: nat, e: PricedEntry)
    requires k < |rows| && ResolveAll(c, o, rows[..k]).Ok? && Resolve(c, o, rows[k]) == Ok(e)
    ensures ResolveAll(c, o, rows[..k + 1]) == Ok(ResolveAll(c, o, rows[..k]).value + [e])
  {
    assert Resolver(c, o)(rows[k]) == Ok(e);
    TraverseExtend(Resolver(c, o), rows, k, e);
  }

  /** A row that fails after successful rows ends the whole build with its fault. */
  lemma StepErr(c: Client, o: Oracle, rows: seq<Row>, k: nat)
    requires k < |rows| && ResolveAll(c, o, rows[..k]).Ok? && Resolve(c, o, rows[k]).Err?
    ensures ResolveAll(c, o, rows) == Err(Resolve(c, o, rows[k]).error)
  {
    assert Resolver(c, o)(rows[k]) == Resolve(c, o, rows[k]);
    TraverseStops(Resolver(c, o), rows, k);
  }

  /** A scratch dictionary holding only entry keys, all five written from e, is e's dictionary. */
  lemma ScratchFilled(ins: Dict, e: PricedEntry)
    requires ins.Keys <= ENTRY_KEYS
    requires "coin" in ins && ins["coin"] == Text(e.coin)
    requires "quantity" in ins && ins["quantity"] == Num(e.quantity)
    requires "price" in ins && ins["price"] == Num(e.price)
    requires "value" in ins && ins["value"] == Num(e.value)
    requires "storage" in ins && ins["storage"] == Text(e.storage)
    ensures ins == ToDict(e)
  {
    assert ins.Keys == ToDict(e).Keys;
  }

  /**
   * The built portfolio holds one entry per row, in row order; entry i is the
   * dictionary of row i alone, with exactly the five keys, so nothing written
   * for an earlier row survives into it.
   */
  lemma {:induction false} PortfolioEntries(c: Client, o: Oracle, rows: seq<Row>)
    requires ResolveAll(c, o, rows).Ok?
    ensures var p := MapSeq(ToDict, ResolveAll(c, o, rows).value);
      |p| == |rows| &&
      forall i :: 0 <= i < |rows| ==>
        Resolve(c, o, rows[i]).Ok? && p[i] == ToDict(Resolve(c, o, rows[i]).value) &&
        p[i].Keys == ENTRY_KEYS &&
        p[i]["coin"] == Text(rows[i].coin) && p[i]["quantity"] == Num(rows[i].quantity) &&
        p[i]["storage"] == Text(rows[i].storage)
  {
    ResolvedRows(c, o, rows);
  }

  /** The build fails exactly when some row fails, and then with the fault of the first such row. */
  lemma {:induction false} PortfolioFault(c: Client, o: Oracle, rows: seq<Row>)
    ensures ResolveAll(c, o, rows).Ok? <==> forall i :: 0 <= i < |rows| ==> Resolve(c, o, rows[i]).Ok?
    ensures ResolveAll(c, o, rows).Err? ==>
      exists i :: 0 <= i < |rows| && Resolve(c, o, rows[i]) == Err(ResolveAll(c, o, rows).error) &&
        forall j :: 0 <= j < i ==> Resolve(c, o, rows[j]).Ok?
  {
    TraverseOk(Resolver(c, o), rows);
    if ResolveAll(c, o, rows).Err? {
      TraverseErr(Resolver(c, o), rows);
    }
  }

  /** The entries of a successful build are the rows' own results, one per row. */
  lemma {:induction false} ResolvedRows(c: Client, o: Oracle, rows: seq<Row>)
    requires ResolveAll(c, o, rows).Ok?
    ensures |ResolveAll(c, o, rows).value| == |rows|
    ensures forall i :: 0 <= i < |rows| ==> Resolve(c, o, rows[i]) == Ok(ResolveAll(c, o, rows).value[i])
  {
    var es := ResolveAll(c, o, rows).value;
    TraverseOk(Resolver(c, o), rows);
    forall i | 0 <= i < |rows|
      ensures Resolve(c, o, rows[i]) == Ok(es[i])
    {
      assert Resolver(c, o)(rows[i]) == Ok(es[i]);
    }
  }

  lemma ResolvedValue(c: Client, o: Oracle, row: Row, e: PricedEntry)
    requires Resolve(c, o, row) == Ok(e)
    ensures e.value == e.quantity * e.price
  {
    ResolvedEntry(c, o, row);
  }

  /** Entries that are the rows' own results are valued at quantity times price. */
  lemma EntriesPriced(c: Client, o: Oracle, rows: seq<Row>, es: seq<PricedEntry>)
    requires |es| == |rows|
    requires forall i :: 0 <= i < |rows| ==> Resolve(c, o, rows[i]) == Ok(es[i])
    ensures forall i :: 0 <= i < |es| ==> es[i].value == es[i].quantity * es[i].price
  {
    forall i | 0 <= i < |es|
      ensures es[i].value == es[i].quantity * es[i].price
    {
      ResolvedValue(c, o, rows[i], es[i]);
    }
  }

  /** Every entry of a built portfolio has a numeric value: its quantity times its price. */
  lemma {:induction false} PortfolioValues(c: Client, o: Oracle, rows: seq<Row>)
    requires ResolveAll(c, o, rows).Ok?
    ensures var es := ResolveAll(c, o, rows).value;
      |es| == |rows| && AllValued(MapSeq(ToDict, es)) &&
      forall i :: 0 <= i < |es| ==> ValueOf(ToDict(es[i])) == es[i].quantity * es[i].price
  {
    var es := ResolveAll(c, o, rows).value;
    ResolvedRows(c, o, rows);
    EntriesPriced(c, o, rows, es);
    forall i | 0 <= i < |es|
      ensures Valued(ToDict(es[i])) && ValueOf(ToDict(es[i])) == es[i].quantity * es[i].price
    {
    }
  }

  /** The total of a built portfolio is the sum of its values; an empty holdings list raises. */
  lemma {:induction false} PortfolioTotal(c: Client, o: Oracle, rows: seq<Row>)
    requires ResolveAll(c, o, rows).Ok?
    ensures AllValued(MapSeq(ToDict, ResolveAll(c, o, rows).value))
    ensures var p := MapSeq(ToDict, ResolveAll(c, o, rows).value);
      (Total(p).Err? <==> rows == []) &&
      (rows != [] ==> Total(p) == Ok(Sum(Values(p))))
  {
    PortfolioValues(c, o, rows);
    TotalIsSum(MapSeq(ToDict, ResolveAll(c, o, rows).value));
  }

  function UsdUrl(c: Client): string {
    PriceUrl(c, c.paircoin + "usdt")
  }

  /** calculate_usd_value: the paircoin's price in usdt; the total passed in is not used. */
  function UsdPrice(c: Client, o: Oracle, totalCoinValue: real): (r: Result<real>)
    ensures r.Ok? <==> o(UsdUrl(c)).Json? && o(UsdUrl(c)).price.Some?
    ensures r.Ok? ==> r.value == o(UsdUrl(c)).price.value
    ensures r.Err? ==> r.error in {FetchFailed(UsdUrl(c)), NoResult(UsdUrl(c))}
  {
    match o(UsdUrl(c))
    case Unavailable => Err(FetchFailed(UsdUrl(c)))
    case Json(_, price) =>
      if price.None? then Err(NoResult(UsdUrl(c))) else Ok(price.value)
  }

  /** The USD line of main: the total, then the usdt quote, then their product. */
  function UsdValue(c: Client, o: Oracle, p: seq<Dict>): (r: Result<real>)
    requires AllValued(p)
    ensures p == [] ==> r == Err(EmptyReduce)
    ensures r.Ok? ==> p != [] && o(UsdUrl(c)).Json? && o(UsdUrl(c)).price.Some?
  {
    match Total(p)
    case Err(e) => Err(e)
    case Ok(total) =>
      match UsdPrice(c, o, total)
      case Err(e) => Err(e)
      case Ok(usd) => Ok(usd * total)
  }

  /** The USD quote is the same whatever total is passed in. */
  lemma UsdPriceIgnoresTotal(c: Client, o: Oracle, t1: real, t2: real)
    ensures UsdPrice(c, o, t1) == UsdPrice(c, o, t2)
    ensures UsdPrice(c, o, t1).Ok? <==> o(UsdUrl(c)).Json? && o(UsdUrl(c)).price.Some?
  {
  }

  /**
   * The USD value is the usdt price of the paircoin times the sum of the
   * values; an empty portfolio raises before the quote is requested.
   */
  lemma UsdValueIsPriceTimesSum(c: Client, o: Oracle, p: seq<Dict>)
    requires AllValued(p)
    ensures p == [] ==> UsdValue(c, o, p) == Err(EmptyReduce)
    ensures UsdValue(c, o, p).Ok? <==> p != [] && o(UsdUrl(c)).Json? && o(UsdUrl(c)).price.Some?
    ensures UsdValue(c, o, p).Ok? ==> UsdValue(c, o, p).value == o(UsdUrl(c)).price.value * Sum(Values(p))
  {
    TotalIsSum(p);
  }

  /** The configured client prices in xlm: the shortcut fires for xlm holdings only. */
  lemma DefaultClientSelfPair(coin: string)
    ensures SelfPair(DEFAULT_CLIENT, coin) <==> Lower(coin) == "xlm"
  {
    SelfPairIff(DEFAULT_CLIENT, coin);
  }

  /** The configured client's bridge and USD quotes are those of xlmbtc and xlmusdt. */
  lemma DefaultClientUrls()
    ensures PaircoinBridgeUrl(DEFAULT_CLIENT) == PriceUrl(DEFAULT_CLIENT, "xlmbtc")
    ensures UsdUrl(DEFAULT_CLIENT) == PriceUrl(DEFAULT_CLIENT, "xlmusdt")
  {
    assert Lower("xlm") == "xlm";
  }

  /** A holding of 2 BTC quoted directly at 30000 usd totals 60000. */
  lemma DirectQuoteExample(o: Oracle)
    requires o(PriceUrl(Client("https://api.cryptowat.ch/", "binance", "usd"), "btcusd")) == Json(false, Some(30000.0))
    ensures var c := Client("https://api.cryptowat.ch/", "binance", "usd");
      var res := ResolveAll(c, o, [Row("BTC", 2.0, "coldwallet")]);
      res.Ok? && AllValued(MapSeq(ToDict, res.value)) && Total(MapSeq(ToDict, res.value)) == Ok(60000.0)
  {
    var c := Client("https://api.cryptowat.ch/", "binance", "usd");
    var row := Row("BTC", 2.0, "coldwallet");
    assert Lower("BTC") == "btc";
    assert CoinPair("BTC", "usd") == "btcusd";
    ResolveDirect(c, o, row, 30000.0);
    var rows := [row];
    var e := PricedEntry("BTC", 2.0, 30000.0, 60000.0, "coldwallet");
    assert rows[..0] == [] && rows[..1] == rows;
    assert Resolver(c, o)(row) == Ok(e);
    TraverseExtend(Resolver(c, o), rows, 0, e);
    var p := MapSeq(ToDict, [e]);
    assert Values(p) == [60000.0];
  }

  /** XYZ with no direct pair: 0.001 btc per XYZ over 0.00003 btc per usd gives 100/3 usd each. */
  lemma BridgeQuoteExample(o: Oracle)
    requires var c := Client("https://api.cryptowat.ch/", "binance", "usd");
      o(PriceUrl(c, "xyzusd")) == Json(true, None) &&
      o(PriceUrl(c, "xyzbtc")) == Json(false, Some(0.001)) &&
      o(PriceUrl(c, "usdbtc")) == Json(false, Some(0.00003))
    ensures var c := Client("https://api.cryptowat.ch/", "binance", "usd");
      var e := Resolve(c, o, Row("XYZ", 10.0, "exchange"));
      e.Ok? && e.value.price == 100.0 / 3.0 && e.value.value == 1000.0 / 3.0
  {
    var c := Client("https://api.cryptowat.ch/", "binance", "usd");
    var row := Row("XYZ", 10.0, "exchange");
    assert Lower("XYZ") == "xyz";
    assert Lower("usd") == "usd";
    assert CoinPair("XYZ", "usd") == "xyzusd";
    assert CoinPair("XYZ", BRIDGE) == "xyzbtc";
    assert CoinPair("usd", BRIDGE) == "usdbtc";
    ResolveBridge(c, o, row, 0.001, 0.00003);
  }
}
