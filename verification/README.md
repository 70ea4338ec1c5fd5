# gainly portfolio reconstruction in Dafny

This project models `PortfolioPerformance` from gainly (gainly/portfolio.py). It turns a ledger of timestamped buy and sell trades, plus optional end-of-day closes from a quote fetcher, into three tables:

- **`daily_positions()`**: one row per (date, symbol) on the full date × symbol grid. Each row has the day's last trade `price`, the running `position` (forward-filled per symbol) and the quoted `close`.
- **`daily_valuations()`**: the same rows plus `value`. The value is `position × price`, or `position × close` on a day without trades. It is forward-filled per symbol where neither factor exists.
- **`positions()`**: per symbol, in symbol order, the last non-missing `position` and `value`.

The repository's tests also expect `invested` and `pl` columns, but gainly/portfolio.py does not compute them. They are modelled separately, as an extension in `extension.dfy`:

- `invested` is the running sum of price × signed quantity, snapshotted and filled like `position`.
- `pl` is `value − invested`, filled like `value`.

Everything is pure. Tables are sequences of row records with `Option` fields where pandas has NaN. Prices and quantities are `real`. A day is an `int` counting days since 1970-01-01.

The modules follow the pipeline:

| file | module | what it holds |
|---|---|---|
| wrappers.dfy | Wrappers | `Option`, `Result` |
| ordering.dfy | Ordering | strict total orders; sorted duplicate-free sequences (pandas' sorted keys and `unique`) |
| ledger.dfy | Ledger | transactions, quotes, cells; `HoldingThrough`, the order-free reference for a running position |
| running.dfy | Running | sort by trade time, grouped cumulative sum, end-of-day snapshot (`groupby([date, symbol]).last()`) |
| fill.dfy | Fill | per-group forward fill (`groupby('symbol').ffill()`) and per-group `last()` |
| quotes.dfy | Quotes | the quote fetcher as a function, the null fetcher, gathering one request per symbol, the `close` merge |
| grid.dfy | Grid | the date × symbol grid and the theorem that filling snapshots over it gives the holding on every row |
| portfolio.dfy | Portfolio | construction and the three queries, with their contracts |
| invariance.dfy | Invariance | independence from ledger order, quote order and (without a fetcher) the current date |
| extension.dfy | Extension | the `invested` and `pl` columns the tests expect |
| scenarios.dfy | Scenarios | the test fixture with the null fetcher and with the mock fetcher: every expected table |
| extended_scenarios.dfy | ExtendedScenarios | the fixture's expected `invested` and `pl` columns |

Decisions that shape the model:

- **Grid order.** The grid is ascending by date, then by symbol. The outer merges sort on their keys, and `groupby` sorts `positions()` by symbol. Symbols compare by code point, as Python strings do.
- **Sort order.** A trade's `trade_date` is a calendar day plus a time of day in nanoseconds, the resolution of pandas' `datetime64[ns]`, so sub-second order is kept. Sorting by `trade_date` is a stable insertion sort (`Running.InsertByTimeIsStable`). pandas' default sort is not promised to be stable. Ties therefore only matter for a day's `price` when two trades in one symbol share a timestamp. Every statement about `price` that does not fix an order assumes distinct timestamps per symbol (`DistinctTimestamps`).
- **Unique quote cells.** The queries require at most one quote per (date, symbol) (`UniqueQuoteCells`). `Invariance.ConstructedQuotesUnique` shows that construction guarantees this whenever the fetcher answers with its own symbol's quotes, one per date.
- **Empty ledger.** Construction from an empty ledger is a `Failure`. With no transactions, the generator over the ledger's `unique()` symbols is empty, so `reduce` without an initial value raises `TypeError`, and the fetcher is never called (gainly/portfolio.py:20-25).
- **`invested` and `pl`.** These follow the expected columns of tests/test_portfolio.py. gainly/portfolio.py does not compute them.

## Model

The table lists the members whose contracts state a property of the code. Functions that only compute a column are stated through the lemmas about them:

- Fill.FillForward (gainly/portfolio.py:57 and :69, `groupby('symbol').ffill()`): Fill.FillForwardInherits, Fill.FillDefined, Fill.FillIsPerSymbol and Fill.FillPersists.
- Portfolio.RawValue (gainly/portfolio.py:65-66, `position * price.combine_first(close)`): Portfolio.WithValuesValue and Portfolio.WithValuesRaw.
- Quotes.SourceOrDefault (gainly/portfolio.py:19, `quote_fetcher or NullQuoteFetcher()`): Invariance.DefaultFetcher.
- Extension.InvestedColumn (the tests' `invested`): Extension.InvestedOnGrid and Extension.InvestedIsCapital.
- Extension.RawPl (the tests' `pl`): Extension.WithPlValue and Extension.PlIsValueLessInvested.
- Portfolio.ColumnsAreFilled and Extension.ExtraColumnsAreFilled only unfold how the columns are computed; they are proof steps, not properties.

| member | source | states |
|---|---|---|
| Portfolio.NewPortfolio | gainly/portfolio.py:12-25 | Construction fails exactly on an empty ledger. Otherwise it keeps the ledger, and its quote table holds exactly the quotes the fetcher returns for some ledger symbol over [first trade day, max(last trade day, today)] |
| Invariance.DefaultFetcher | gainly/portfolio.py:19 | Without a fetcher, the null fetcher is used: the quote table is empty, and the current date makes no difference |
| Quotes.NoQuotes | gainly/eod.py:13-19 | The `NullQuoteFetcher` returns no quotes, whatever the symbol and range |
| Quotes.UniqueInOrder | gainly/portfolio.py:25 | `unique()`: no symbol twice, and exactly the symbols of the input |
| Quotes.GatherQuotes | gainly/portfolio.py:20-25 | The concatenated tables hold exactly the quotes returned for one of the requested symbols |
| Quotes.GatheredQuotesUnique | gainly/portfolio.py:20-25 | One request per distinct symbol, to a fetcher that returns its own symbol's quotes at one per date, yields at most one quote per (date, symbol) |
| Invariance.ConstructedQuotesUnique | gainly/portfolio.py:20-25 | A constructed portfolio's quote table meets the queries' unique-cell requirement whenever the fetcher is well behaved |
| Scenarios.MockFetcherServesOwnSymbol | tests/test_portfolio.py:12-23 | The tests' mock fetcher returns, for each symbol, only that symbol's quotes, at most one per date |
| Running.InsertByTime | gainly/portfolio.py:29 | The insertion step of the sort: inserting a transaction into a time-sorted ledger gives a time-sorted ledger holding exactly the old rows plus the new one, with multiplicity |
| Running.InsertByTimeIsStable | gainly/portfolio.py:29 | The insertion keeps the old rows in their order and puts the new row at the insertion point, so rows with equal timestamps keep their ledger order |
| Running.InsertionPointSplits | gainly/portfolio.py:29 | Every row before the insertion point is not later than the new row, and every row from it on is strictly later |
| Running.SortByTradeDate | gainly/portfolio.py:29 | The sorted ledger is a permutation of the ledger, in non-decreasing timestamp order |
| Running.RunningTotals | gainly/portfolio.py:30-32 | Each row's running total is the signed sum (+quantity for a buy, −quantity for a sell) over its symbol's rows up to and including it; other symbols never contribute |
| Running.DailySnapshots | gainly/portfolio.py:38-41 | A (date, symbol) has a snapshot exactly when some row falls on it |
| Running.DailySnapshotsKeepLast | gainly/portfolio.py:38-41 | Each snapshot holds the price and running total of the last row on its cell, which no later row on that cell follows |
| Running.SnapshotTableMatchesLedger | gainly/portfolio.py:29-41 | Exactly the traded (day, symbol) cells have a snapshot. Its position is the symbol's holding through the end of that day, and its price is that of a trade no other trade on the cell follows |
| Running.LatestTrade | gainly/portfolio.py:38-41 | Order-independent reference for the snapshot price: present exactly on traded cells, a trade of the ledger on that cell, not followed by any other trade on it |
| Running.LatestPriceIsUnique | gainly/portfolio.py:29-41 | With distinct timestamps, any two orders of the same ledger agree on each cell's latest price |
| Running.SnapshotPriceIsLatestTrade | gainly/portfolio.py:38-41 | With distinct timestamps, the snapshot price equals the reference latest-trade price, and exists exactly when it does |
| Running.LatestTradePriceAt | gainly/portfolio.py:38-41 | A trade that no other trade on its cell follows sets that cell's latest price |
| Ledger.HoldingThroughPermutation | gainly/portfolio.py:29-32 | A symbol's holding through a date does not depend on the order in which the ledger lists its trades |
| Ledger.HoldingSteady | gainly/portfolio.py:57 | Without trades in a symbol between two dates, its holding does not change between them |
| Ledger.HoldingPersists | gainly/portfolio.py:57 | Once a symbol holds a position, it never becomes absent again on a later date |
| Ordering.SortedUnique | gainly/portfolio.py:45-50 | The distinct values of a column: strictly ascending, and exactly the values that occur |
| Ordering.SortedIsCanonical | gainly/portfolio.py:45-53 | Two strictly sorted sequences with the same elements are equal, so the grid axes are determined by their contents |
| Portfolio.TableDates | gainly/portfolio.py:45-49 | The grid's dates: strictly ascending, and exactly the trade days and quote dates |
| Portfolio.TableSymbols | gainly/portfolio.py:45-50 | The grid's symbols: strictly ascending, and exactly the traded and quoted symbols |
| Grid.GridCells | gainly/portfolio.py:48-51 | A cell is in the grid exactly when its date is a grid date and its symbol a grid symbol |
| Grid.GridCellAt | gainly/portfolio.py:48-51 | The grid is date-major: row `i·|symbols| + j` pairs the `i`-th date with the `j`-th symbol, and the grid has `|dates|·|symbols|` rows |
| Grid.GridSorted | gainly/portfolio.py:48-53 | Grid rows are strictly ascending by (date, symbol), so no cell appears twice |
| Grid.FilledGridIsHolding | gainly/portfolio.py:57 | Forward filling the end-of-day snapshots over the grid gives, on every row, the symbol's holding through the end of the row's date |
| Fill.FillForwardInherits | gainly/portfolio.py:57 | Forward fill keeps a present value. An absent one takes the filled value of the previous row with the same key, or the initial value on the key's first row |
| Fill.FillIsPerSymbol | gainly/portfolio.py:57 | A key's filled values depend only on that key's rows: filling never crosses symbols |
| Fill.FillPersists | gainly/portfolio.py:57 | Once a key's filled value is present, it stays present on all its later rows |
| Fill.FillDefined | gainly/portfolio.py:57 | A filled value is present exactly when the key had a value on this row or on an earlier row (or an initial one) |
| Fill.LastDefinedFor | gainly/portfolio.py:75 | `last()` of a group: the group's last non-missing value, absent only when the whole group is missing |
| Fill.LastOfFilled | gainly/portfolio.py:75 | On a forward-filled column, a group's last non-missing value is the value on its last row |
| Quotes.CloseOn | gainly/portfolio.py:43-45 | The merged `close` is missing on a cell without a quote; when present, it is the close of a quote for that cell. A fetched close may itself be NaN, since the fetcher's `close` column is a float (gainly/eod.py:18) |
| Quotes.CloseOnUniqueQuote | gainly/portfolio.py:43-45 | With unique quote cells, a quoted cell's `close` is its one quote's close, NaN included |
| Portfolio.DailyPositions | gainly/portfolio.py:27-58 | One row per grid cell, in grid order |
| Portfolio.DailyPositionsGrid | gainly/portfolio.py:45-53 | The rows' cells are exactly {trade days ∪ quote dates} × {traded ∪ quoted symbols}, strictly ascending by date then symbol, each cell once |
| Portfolio.TableShape | gainly/portfolio.py:45-53 | The grid's symbols are distinct, and every trade day is a grid date |
| Portfolio.DailyPositionsHolding | gainly/portfolio.py:29-57 | Each row's `position` is absent before the symbol's first trade day. After it, the position is the signed quantity sum over the symbol's trades through the row's date. On non-trade dates it is therefore carried from the latest earlier trade day |
| Portfolio.DailyPositionsPrice | gainly/portfolio.py:38-41 | A row has a `price` exactly when its symbol traded that day, and it is the price of that day's latest trade |
| Portfolio.DailyPositionsClose | gainly/portfolio.py:43-45 | A row has a `close` exactly when its cell has a quote with a non-NaN close, and it is that quote's close. A quote with a NaN close still puts its date on the grid but leaves the row's `close` missing |
| Portfolio.DailyPositionsClosedForm | gainly/portfolio.py:27-58 | With distinct timestamps, every row equals the reference row built from the ledger and the quotes alone: latest trade price, holding through the date, quoted close |
| Portfolio.WithValues | gainly/portfolio.py:60-71 | Adding `value` leaves every other column of every row unchanged |
| Portfolio.DailyValuations | gainly/portfolio.py:60-71 | The valuation rows are the daily position rows, in order, each with a `value` |
| Portfolio.WithValuesValue | gainly/portfolio.py:65-69 | `value = position × price` where a trade price exists, else `position × close`. A row that cannot be valued carries its symbol's previous value, or none on the symbol's first row |
| Portfolio.WithValuesRaw | gainly/portfolio.py:65-66 | A row that can be valued on its own carries exactly its own value, never a carried one; a zero value is kept, not treated as missing |
| Portfolio.WithValuesDefined | gainly/portfolio.py:65-69 | A row has a value exactly when some row of its symbol up to it could be valued on its own |
| Portfolio.DailyValuationsNeedPosition | gainly/portfolio.py:65-69 | No value without a position: rows before a symbol's first trade are never valued, whatever closes exist |
| Portfolio.LatestDate | gainly/portfolio.py:75 | The last grid date: a table date no other table date follows |
| Portfolio.Positions | gainly/portfolio.py:73-75 | One holding per grid symbol, in symbol order, none filtered out |
| Portfolio.LastRowOnLatestDate | gainly/portfolio.py:73-75 | Every grid symbol's last row lies on the latest grid date |
| Portfolio.HoldingIsLatestRow | gainly/portfolio.py:73-75 | A holding's `position` and `value` are those of its symbol's row on the latest date, and the position is the holding through that date |
| Portfolio.PositionsAreCurrent | gainly/portfolio.py:73-75 | The same for every holding of `positions()` at once |
| Portfolio.ValuationKeysDistinct | gainly/portfolio.py:45-53 | No two valuation rows share a (date, symbol) |
| Portfolio.HoldingIsRow | gainly/portfolio.py:73-75 | A holding agrees with the valuation row of its symbol on the latest date, wherever that row is found |
| Invariance.SameTableAxes | gainly/portfolio.py:45-53 | Reordering the ledger and the quotes changes neither the grid dates nor the grid symbols |
| Invariance.OrderIndependence | gainly/portfolio.py:27-75 | With distinct timestamps, any order of the same transactions and the same quotes yields the same daily positions, daily valuations and positions |
| Invariance.ConstructionOrderIndependence | gainly/portfolio.py:12-75 | With a well-behaved fetcher and distinct timestamps per symbol, constructing from any order of the same ledger yields the same three tables |
| Extension.WithPl | tests/test_portfolio.py:86-99 | Adding `invested` and `pl` leaves every valuation column unchanged, and `invested` is the given column |
| Extension.ExtendedValuations | tests/test_portfolio.py:86-99 | The extended rows are the valuation rows, in order, with the two extra columns |
| Extension.InvestedOnGrid | tests/test_portfolio.py:50-62 | `invested` on each grid row is absent before the symbol's first trade, then Σ price × signed quantity through the row's date |
| Extension.InvestedIsCapital | tests/test_portfolio.py:33-39 | The same, stated on the rows of the extended valuations |
| Extension.InvestedWithPosition | tests/test_portfolio.py:50-62 | `invested` and `position` are present on exactly the same rows |
| Extension.InvestedWhereHeld | tests/test_portfolio.py:50-62 | Wherever a position is held, the capital invested is known |
| Extension.WithPlValue | tests/test_portfolio.py:86-99 | `pl = value − invested` on a row that can be valued. Another row carries its symbol's previous `pl`, or none on the symbol's first row |
| Extension.PlIsValueLessInvested | tests/test_portfolio.py:73-79 | On every row valued from its own price or close, `value`, `invested` and `pl` are present, and `pl == value − invested` |
| Extension.ExtendedPositions | tests/test_portfolio.py:105-123 | The extended summary has the rows of `positions()`, with the same symbol, position and value |
| Extension.ExtendedHoldingIsLatestRow | tests/test_portfolio.py:105-123 | A holding's `invested` is the capital through the latest date, and its `invested` and `pl` are those of its symbol's row on that date |
| Extension.ExtendedHoldingIsRow | tests/test_portfolio.py:105-123 | An extended holding agrees with its symbol's extended row on the latest date, wherever that row is found |
| Scenarios.FixtureTimestampsDistinct | tests/test_portfolio.py:130-140 | The fixture ledger has no two trades in one symbol at the same moment |
| Scenarios.PositionsWithoutQuotes | tests/test_portfolio.py:32-42 | Without quotes, the fixture's daily positions are the expected six rows |
| Scenarios.ValuationsWithoutQuotes | tests/test_portfolio.py:72-80 | Without quotes, the fixture's daily valuations are the expected six rows |
| Scenarios.HoldingsWithoutQuotes | tests/test_portfolio.py:106-113 | Without quotes, `positions()` is EUNA.DE 1.0 worth 1.0 and IWDA 5.0 worth 15.0 |
| Scenarios.ScenarioWithoutQuotes | tests/test_portfolio.py:142-158 | Constructed without a fetcher on any date, the fixture gives the three expected tables |
| Scenarios.MockConstruction | gainly/portfolio.py:20-25 | Constructed with the mock fetcher on any date, the quote table holds exactly the mock quotes, each cell once |
| Scenarios.PositionsWithQuotes | tests/test_portfolio.py:49-63 | With the mock quotes, the daily positions are the expected twelve rows. Quote-only dates get rows for every symbol, and the trade price wins over the close |
| Scenarios.ValuationsWithQuotes | tests/test_portfolio.py:86-100 | With the mock quotes, the daily valuations are the expected twelve rows, including IWDA's value 2.0 carried to 2025-02-01 |
| Scenarios.HoldingsWithQuotes | tests/test_portfolio.py:116-122 | With the mock quotes, `positions()` is EUNA.DE 1.0 worth 2.0 and IWDA 5.0 worth 20.0 |
| Scenarios.ScenarioWithQuotes | tests/test_portfolio.py:142-158 | Constructed with the mock fetcher on any date, the fixture gives the three expected tables |
| ExtendedScenarios.ExtendedValuationsWithoutQuotes | tests/test_portfolio.py:72-80 | Without quotes, the extended valuations have the expected `invested` and `pl` columns |
| ExtendedScenarios.ExtendedHoldingsWithoutQuotes | tests/test_portfolio.py:106-113 | Without quotes, the extended summary has `invested` 3.0 and 11.0 and `pl` −2.0 and 4.0 |
| ExtendedScenarios.ExtendedValuationsWithQuotes | tests/test_portfolio.py:86-100 | With the mock quotes, the extended valuations have the expected `invested` and `pl` columns |
| ExtendedScenarios.ExtendedHoldingsWithQuotes | tests/test_portfolio.py:116-122 | With the mock quotes, the extended summary has `invested` 3.0 and 11.0 and `pl` −1.0 and 9.0 |
| ExtendedScenarios.ExtendedScenarioWithoutQuotes | tests/test_portfolio.py:148-158 | Constructed without a fetcher, the fixture gives the expected extended valuations and extended summary |
| ExtendedScenarios.ExtendedScenarioWithQuotes | tests/test_portfolio.py:148-158 | Constructed with the mock fetcher, the fixture gives the expected extended valuations and extended summary |

## Left out

- gainly/yahoo.py, gainly/lit/main.py, gainly/lit/util.py and bin/load_csv.py are not part of this model. They are HTTP, UI, SQLite and CLI code. The quote fetcher is modelled only as a function from (symbol, from, to) to a quote list.
- The ledger schema validation (`TransactionSchema`, imported by bin/load_csv.py) is not part of this model. Its definition is not in the repository's code, and gainly/portfolio.py does no validation.
- A `trade_date` is taken as already split into a calendar day and a nanosecond of that day. Time zones and the conversion done by `.date` are not modelled.
- `date.today()` in the constructor is a parameter `today` of `NewPortfolio`. It only widens the range asked of the fetcher.
- Floating point: prices, quantities, positions, values and fetched closes are exact `real`s. NaN is `None`, both in the output columns and in a fetched quote's `close`. Dtype coercion is not modelled.
- `side` is the enumeration `Buy | Sell`. Any other string maps to NaN in the code; that case is not modelled.
- A fetcher that raises is not modelled: the fetcher is a total function.
- Pandas' many-to-many merge for duplicate (date, symbol) quotes is not modelled. The queries require unique quote cells instead.
- Running.SortByTradeDate: stable (`Running.InsertByTimeIsStable`), whereas pandas' default sort kind gives no stability promise. The order among trades with equal timestamps is therefore a modelling choice. Statements about `price` that fix no order assume distinct timestamps per symbol.
- Invariance.OrderIndependence: requires distinct timestamps per symbol, because with a tie the day's `price` depends on the sort's tie order.
- Invariance.ConstructionOrderIndependence: requires distinct timestamps per symbol, for the same reason.
- Portfolio.NewPortfolio: states the gathered quotes as a set (which quotes, not their concatenation order or multiplicity). The queries depend only on that set once quote cells are unique.
- Scenarios.MockFetcher: ignores the requested range, as the tests' mock does.
- `invested` and `pl` are not computed by gainly/portfolio.py. They are modelled in Extension after the expected columns of tests/test_portfolio.py, not from code.
