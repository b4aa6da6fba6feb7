# Crypto portfolio valuation, modelled in Dafny

Two Python scripts value a portfolio of coin holdings against prices from the
cryptowat.ch market-data service. `crypto.py` prices every holding in btc on
the binance market with one request per holding. `async_crypto.py` prices every
holding in a configured reference coin (the "paircoin", `xlm`). It has three
paths:

- A holding of the paircoin itself skips the network.
- Otherwise the direct pair is quoted.
- A reply with an `"error"` key falls back to a two-hop price through `btc`.

Both scripts then build one dictionary per holding and total the values with
`reduce(add, ...)`. The asynchronous script also converts the total to USD
through the paircoin's `usdt` quote.

The model keeps the valuation logic and replaces the service by an oracle. The
oracle is a fixed function from request URL to reply (`Common.Oracle`). A reply
is a parsed JSON object or `Unavailable`. For a parsed object the model keeps
whether it carries an `"error"` key and its `result.price` if present.
Everything that raises in the scripts is a `Fault`:

- a failed request or unparsable body;
- a `KeyError` on `result.price`;
- `1 / 0.0` in the bridge price;
- `reduce` over an empty list.

Where the scripts raise, the model returns the fault and stops, in the order
Python evaluates the expressions.

Files:

- `common.dfy`, module `Common`: replies, faults, rows, dictionaries, ASCII
  `lower()`, and `Traverse`, a left fold over rows that stops at the first fault.
  `Traverse` is the loop semantics both scripts share.
- `totals.dfy`, module `Totals`: `calculate_portfolio_total`, which both scripts
  define identically. It has a fold-based `Reduce` and a reference `Sum`.
- `async_crypto.dfy`, module `AsyncCrypto`: the asynchronous script.
  `Resolve` is the specification of one loop pass. `CalculatePortfolio` is the
  imperative loop over the reused `insertion` dictionary, proved equal to the
  specification.
- `crypto.dfy`, module `Crypto`: the synchronous script.

Points where the code behaves differently from what one might expect:

- The self-pair test compares `lower(coin) + paircoin` with `lower(coin)`
  written twice. It matches only when the paircoin is configured in lower case
  (`SelfPairNeedsLowerCasePaircoin`). It is not a case-insensitive comparison.
- Only the direct reply is checked for `"error"`. A direct reply that has both
  `"error"` and a result still takes the bridge. The bridge replies and the USD
  reply are never checked for `"error"`: they abort only when `result.price` is
  missing.
- A zero paircoin bridge price raises `ZeroDivisionError`.
- The two bridge requests are made one after the other. A transport failure on
  the first one means the second is never sent.
- `calculate_usd_value` returns only the quote price. `main` multiplies it by
  the total.

## Model

| member | source | states |
|---|---|---|
| `Common.Lower` | async_crypto.py:41 | `str.lower()` on ASCII: same length, every A–Z moved by 32 to a–z, every other character kept, no capital left |
| `Totals.FoldIsSum` | async_crypto.py:45 | the left fold inside `reduce(add, ...)` from a seed equals the seed plus the sum of the rest |
| `Totals.ReduceIsSum` | async_crypto.py:45 | `reduce(add, vs)` fails with the empty-reduce fault exactly when `vs` is empty, and otherwise equals the sum of `vs` |
| `Totals.Reduce` | async_crypto.py:45 | `reduce(add, vs)` without an initial value fails, with the empty-reduce fault, exactly when `vs` is empty (its value is stated by `ReduceIsSum`) |
| `Totals.Total` | async_crypto.py:44-45 | `calculate_portfolio_total` fails, with the empty-reduce fault, exactly on an empty portfolio (its value is stated by `TotalIsSum` and `TotalPermutation`) |
| `Totals.TotalIsSum` | async_crypto.py:44-45 | the portfolio total fails exactly on an empty portfolio and otherwise equals the sum of the entries' `"value"` |
| `Totals.TotalPermutation` | async_crypto.py:44-45 | reordering the portfolio entries (same multiset) leaves the total unchanged |
| `AsyncCrypto.PriceUrl` | async_crypto.py:20-24 | the price URL is `base_url + "markets/" + market + "/"`, then the pair, then `"/price"` |
| `AsyncCrypto.PriceUrlRoundTrip` | async_crypto.py:20-24 | the pair can be read back from its price URL, so two pairs share a URL exactly when they are equal |
| `AsyncCrypto.CoinPair` | async_crypto.py:40-41 | `get_coin_pair(coin, pair)` has length `|coin| + |pair|`, starts with `lower(coin)` and ends with `pair` |
| `AsyncCrypto.SelfPairIff` | async_crypto.py:118-120 | the shortcut test `pair == lower(coin) + lower(coin)` holds exactly when the paircoin equals `lower(coin)` |
| `AsyncCrypto.SelfPairNeedsLowerCasePaircoin` | async_crypto.py:118-120 | a paircoin containing a capital letter never triggers the shortcut |
| `AsyncCrypto.DefaultClientSelfPair` | async_crypto.py:14-18 | with the configured client the shortcut fires exactly for holdings whose lower-cased coin is `xlm` |
| `AsyncCrypto.DefaultClientUrls` | async_crypto.py:14-18 | the configured client asks binance for `xlmbtc` as the bridge quote and `xlmusdt` as the USD quote |
| `AsyncCrypto.ToDict` | async_crypto.py:84-91 | an entry dictionary has exactly the keys coin, quantity, price, value, storage |
| `AsyncCrypto.BtcEquivalent` | async_crypto.py:65-91 | `calculate_btc_equivalent` copies coin, quantity and storage from the row; it succeeds only on a non-zero paircoin bridge price; its only faults are the two bridge URLs' fetch and missing-result faults and the division by zero (case by case in `BridgeFaults`, value in `ResolveBridge`) |
| `AsyncCrypto.Resolve` | async_crypto.py:114-135 | one pass of the loop: the self-pair shortcut never fails, and every successful entry copies coin, quantity and storage from its row (paths stated by `ResolveSelfPair`, `ResolveDirect`, `ResolveBridge`, `ResolveFaults`) |
| `AsyncCrypto.Fetched` | async_crypto.py:118-130 | the requests one pass sends: none for the shortcut, otherwise at most three, starting with the direct URL; a second request is the coin bridge URL and is sent only after a direct reply with `"error"` (dependence stated by `OracleLocality`) |
| `AsyncCrypto.ResolveSelfPair` | async_crypto.py:118-122 | when the paircoin is the lower-cased coin the entry has price 1.0 and value = quantity, and no URL is fetched |
| `AsyncCrypto.ResolveDirect` | async_crypto.py:124-133 | a direct reply with price p and no `"error"` gives price p and value p × quantity after one request |
| `AsyncCrypto.ResolveNoResult` | async_crypto.py:129-133 | a direct reply with neither `"error"` nor a result aborts with a missing-result fault; there is no fallback for it |
| `AsyncCrypto.ResolveBridge` | async_crypto.py:65-91 | after an `"error"` reply, `lower(coin)+"btc"` gives a and `lower(paircoin)+"btc"` gives b; price = a·(1/b), value = (q·a)·(1/b), b = 0 raises, and three URLs are fetched in order |
| `AsyncCrypto.ResolveFaults` | async_crypto.py:118-133 | a pass fails exactly when the shortcut does not apply and the direct reply is unusable (fetch fault on the direct URL), or has neither `"error"` nor a result, or has `"error"` and the bridge fails (then the pass's result is the bridge's); an unusable coin bridge reply means the paircoin bridge is never requested |
| `AsyncCrypto.BridgeFaults` | async_crypto.py:65-91 | the bridge fails exactly when either reply is unusable, either has no result, or the paircoin price is zero; the coin request's fault comes first, then the paircoin request's, then the coin's missing result, then the paircoin's |
| `AsyncCrypto.ResolvedEntry` | async_crypto.py:114-133 | every priced entry copies coin, quantity and storage from its row and has value = quantity × price |
| `AsyncCrypto.OracleLocality` | async_crypto.py:118-130 | the entry depends on the service only at the URLs the pass fetches: two oracles that agree there give the same entry and the same fetches |
| `AsyncCrypto.ResolveAll` | async_crypto.py:107-137 | the portfolio the loop builds, one entry per row when it succeeds (contents stated by `PortfolioEntries`, faults by `PortfolioFault`) |
| `AsyncCrypto.AddToPortfolio` | async_crypto.py:61-62 | appending keeps the earlier entries and stores a copy of the keyword dictionary as the last entry |
| `AsyncCrypto.ScratchFilled` | async_crypto.py:114-133 | a scratch dictionary holding only entry keys, with all five written for the current row, equals that row's fresh entry dictionary |
| `AsyncCrypto.CalculatePortfolio` | async_crypto.py:107-137 | the loop over the reused `insertion` dictionary returns exactly the dictionaries of the per-row specification in row order, or the first fault |
| `AsyncCrypto.PortfolioEntries` | async_crypto.py:107-137 | one entry per row in row order; entry i is row i's own dictionary with exactly the five keys and with coin, quantity and storage from row i, so no field of an earlier row survives |
| `AsyncCrypto.PortfolioFault` | async_crypto.py:112-135 | the build fails exactly when some row fails, and then with the fault of the first failing row |
| `AsyncCrypto.PortfolioValues` | async_crypto.py:121-133 | every built entry carries a numeric value equal to its quantity times its price |
| `AsyncCrypto.PortfolioTotal` | async_crypto.py:149 | the total of a built portfolio is the sum of its values and fails exactly when there are no rows |
| `AsyncCrypto.UsdPrice` | async_crypto.py:94-104 | `calculate_usd_value` succeeds exactly when the paircoin's `usdt` reply is a JSON object with a result, returns that price, and otherwise fails with that URL's fetch or missing-result fault |
| `AsyncCrypto.UsdValue` | async_crypto.py:149-155 | the USD line of `main` fails with the empty-reduce fault on an empty portfolio, and succeeds only on a non-empty portfolio whose `usdt` quote has a result |
| `AsyncCrypto.UsdPriceIgnoresTotal` | async_crypto.py:94-104 | `calculate_usd_value` returns the paircoin's `usdt` price whatever total is passed in, and fails exactly when that reply has no result |
| `AsyncCrypto.UsdValueIsPriceTimesSum` | async_crypto.py:151-155 | the USD value is the `usdt` price times the sum of the values; an empty portfolio fails before the quote, and the value exists exactly when the portfolio is non-empty and the quote has a result |
| `AsyncCrypto.DirectQuoteExample` | async_crypto.py:124-133 | 2 BTC with a direct `btcusd` quote of 30000 gives a portfolio total of 60000 |
| `AsyncCrypto.BridgeQuoteExample` | async_crypto.py:84-91 | 10 XYZ with no direct pair, 0.001 btc per XYZ and 0.00003 btc per usd gives price 100/3 and value 1000/3 |
| `Crypto.MarketUrl` | crypto.py:13-14 | the `get_market` target is the base URL, `"markets/"`, then the market |
| `Crypto.MarketPriceUrl` | crypto.py:16-17 | the `get_market_price` target is the market target and `"/"`, then the pair, then `"/price"` |
| `Crypto.MarketPriceUrlExtendsMarketUrl` | crypto.py:13-17 | the `get_market_price` target is the `get_market` target followed by `"/"`, the pair and `"/price"`, and distinct pairs give distinct targets |
| `Crypto.CoinPair` | crypto.py:32-33 | `get_coin_pair(coin)` has length `|coin| + 3`, starts with `lower(coin)` and ends with the module-level pair `"btc"` |
| `Crypto.RowUrlIsBinanceBtc` | crypto.py:40 | every row is quoted at `base_url + "markets/binance/" + lower(coin) + "btc/price"` |
| `Crypto.ToDict` | crypto.py:42-49 | an entry dictionary has exactly the keys coin, quantity, price, value |
| `Crypto.PriceRow` | crypto.py:40-48 | one pass of the loop: a successful entry copies coin and quantity from its row and has value = price × quantity; its only faults are the row URL's fetch and missing-result faults |
| `Crypto.PriceRowQuoted` | crypto.py:40-47 | a reply with `result.price` p gives price p and value p × quantity, whether or not the reply carries `"error"` |
| `Crypto.PriceRowFaults` | crypto.py:40-47 | a row fails exactly when its request fails or its reply has no result, and the fault names that URL |
| `Crypto.PriceAll` | crypto.py:36-51 | the portfolio the loop builds, one entry per row when it succeeds (contents stated by `PortfolioEntries`, faults by `PortfolioFault`) |
| `Crypto.CalculatePortfolio` | crypto.py:36-51 | the loop returns exactly the dictionaries of the per-row specification in row order, or the first fault |
| `Crypto.PortfolioEntries` | crypto.py:36-51 | one entry per row in row order, with exactly the keys coin, quantity, price, value and no storage; coin and quantity come from the row, price from its quote, value = price × quantity |
| `Crypto.PortfolioFault` | crypto.py:39-49 | the build fails exactly when some row's quote fails, and then with the fault of the first such row |
| `Crypto.PortfolioValues` | crypto.py:47 | every built entry carries a numeric value equal to its quote times the row's quantity |
| `Crypto.PortfolioTotal` | crypto.py:63-64 | the total of a built portfolio is the sum of its values and fails exactly when there are no rows |

## Left out

- HTTP transport (`fetch`, the aiohttp session, `requests.get`) and `json.loads` / `.json()`: replaced by the oracle. A failed request and a body that is not a JSON object are the same fault.
- The `asyncio` event loop in `main`: every request is awaited in turn, so the model is sequential.
- `load_currency_file` and CSV parsing: rows are given already parsed as (coin, quantity, storage), with `float(coin[1])` as a real. Rows with fewer fields or a non-numeric quantity are not modelled.
- `display_portfolio`, every `print` and `datetime.now()`: console output only.
- IEEE floating point: prices, quantities and values are exact reals. Equalities such as value = quantity × price hold over reals, not necessarily over Python floats.
- `Common.Lower`: only ASCII A–Z are lower-cased. Python's `str.lower` also lower-cases non-ASCII letters.
- The `pairusd` field of the asynchronous client: it is set in `__init__` and never read.
- `Crypto.MarketUrl`: only the target URL of `get_market` is modelled, because the script defines the method but never calls it.
- `Totals.Total`: requires every entry to carry a numeric `"value"`, which every built portfolio does (`PortfolioValues`). Missing or textual values, which would make Python raise or concatenate, are not modelled.
