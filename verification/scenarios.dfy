/** The repository's test fixture worked through the model: the five-trade
    ledger, listed out of date order, with no quote fetcher and with the
    mock fetcher, and the tables the tests expect. Days are counted from
    1970-01-01: 20088 is 2024-12-31, 20089 is 2025-01-01, 20103 is
    2025-01-15, 20120 is 2025-02-01, 20148 is 2025-03-01 and 20162 is
    2025-03-15. */
module Scenarios {
  import opened Wrappers
  import opened Ordering
  import opened Ledger
  import opened Fill
  import opened Quotes
  import opened Running
  import opened Grid
  import opened Portfolio
  import Invariance

  /** The fixture ledger in its listed order (times of day in nanoseconds). */
  function FixtureLedger(): seq<Transaction> {
    [ Transaction(Timestamp(20089, 43_200_000_000_000), "IWDA", Buy, 1.0, 1.0),
      Transaction(Timestamp(20148, 43_200_000_000_000), "EUNA.DE", Sell, 1.0, 1.0),
      Transaction(Timestamp(20148, 46_800_000_000_000), "IWDA", Buy, 1.0, 1.0),
      Transaction(Timestamp(20120, 0), "EUNA.DE", Buy, 2.0, 2.0),
      Transaction(Timestamp(20148, 50_400_000_000_000), "IWDA", Buy, 3.0, 3.0) ]
  }

  lemma FixtureDates(p: Portfolio)
    requires p.txns == FixtureLedger() && |p.quotes| == 0
    ensures TableDates(p) == [20089, 20120, 20148]
  {
    var expected := [20089, 20120, 20148];
    forall d ensures d in TableDates(p) <==> d in expected {
      if d in expected {
        assert d == p.txns[0].tradeDate.day || d == p.txns[3].tradeDate.day || d == p.txns[1].tradeDate.day;
      }
    }
    IntLessIsStrictTotalOrder();
    SortedIsCanonical(TableDates(p), expected, IntLess);
  }

  lemma FixtureSymbols(quotes: seq<Quote>)
    requires forall k :: 0 <= k < |quotes| ==> quotes[k].symbol == "IWDA" || quotes[k].symbol == "EUNA.DE"
    ensures TableSymbols(Portfolio(FixtureLedger(), quotes)) == ["EUNA.DE", "IWDA"]
  {
    var p := Portfolio(FixtureLedger(), quotes);
    var expected := ["EUNA.DE", "IWDA"];
    forall s ensures s in TableSymbols(p) <==> s in expected {
      if s in expected {
        assert s == p.txns[0].symbol || s == p.txns[1].symbol;
      }
    }
    assert StringLess("EUNA.DE", "IWDA");
    StringLessIsStrictTotalOrder();
    SortedIsCanonical(TableSymbols(p), expected, StringLess);
  }

  lemma FixtureTimestampsDistinct()
    ensures DistinctTimestamps(FixtureLedger())
  {
  }

  /** The expected `daily_positions()` without quotes (tests/test_portfolio.py:32-40). */
  function ExpectedPositionsWithoutQuotes(): seq<DailyPosition> {
    [ DailyPosition(20089, "EUNA.DE", None, None, None),
      DailyPosition(20089, "IWDA", Some(1.0), Some(1.0), None),
      DailyPosition(20120, "EUNA.DE", Some(2.0), Some(2.0), None),
      DailyPosition(20120, "IWDA", None, Some(1.0), None),
      DailyPosition(20148, "EUNA.DE", Some(1.0), Some(1.0), None),
      DailyPosition(20148, "IWDA", Some(3.0), Some(5.0), None) ]
  }

  /** The grid of the fixture without quotes. */
  lemma FixtureCells(p: Portfolio)
    requires p.txns == FixtureLedger() && |p.quotes| == 0
    ensures |TableCells(p)| == 6
    ensures TableCells(p)[0] == Cell(20089, "EUNA.DE")
    ensures TableCells(p)[1] == Cell(20089, "IWDA")
    ensures TableCells(p)[2] == Cell(20120, "EUNA.DE")
    ensures TableCells(p)[3] == Cell(20120, "IWDA")
    ensures TableCells(p)[4] == Cell(20148, "EUNA.DE")
    ensures TableCells(p)[5] == Cell(20148, "IWDA")
  {
    var ds, syms := [20089, 20120, 20148], ["EUNA.DE", "IWDA"];
    FixtureDates(p);
    FixtureSymbols(p.quotes);
    GridCellAt(ds, syms, 0, 0);
    GridCellAt(ds, syms, 0, 1);
    GridCellAt(ds, syms, 1, 0);
    GridCellAt(ds, syms, 1, 1);
    GridCellAt(ds, syms, 2, 0);
    GridCellAt(ds, syms, 2, 1);
  }

  lemma FixtureHoldings()
    ensures HoldingThrough(FixtureLedger(), "EUNA.DE", 20089, Units) == None
    ensures HoldingThrough(FixtureLedger(), "IWDA", 20089, Units) == Some(1.0)
    ensures HoldingThrough(FixtureLedger(), "EUNA.DE", 20120, Units) == Some(2.0)
    ensures HoldingThrough(FixtureLedger(), "IWDA", 20120, Units) == Some(1.0)
    ensures HoldingThrough(FixtureLedger(), "EUNA.DE", 20148, Units) == Some(1.0)
    ensures HoldingThrough(FixtureLedger(), "IWDA", 20148, Units) == Some(5.0)
  {
    var l := FixtureLedger();
    assert l[0].symbol == "IWDA" && l[3].symbol == "EUNA.DE";
  }

  lemma FixtureNoTrades()
    ensures LatestTradePrice(FixtureLedger(), Cell(20089, "EUNA.DE")) == None
    ensures LatestTradePrice(FixtureLedger(), Cell(20120, "IWDA")) == None
  {
    var l := FixtureLedger();
    assert forall i :: 0 <= i < |l| ==> TradeCell(l[i]) != Cell(20089, "EUNA.DE") && TradeCell(l[i]) != Cell(20120, "IWDA");
  }

  lemma FixtureLatestPrices()
    ensures LatestTradePrice(FixtureLedger(), Cell(20089, "IWDA")) == Some(1.0)
    ensures LatestTradePrice(FixtureLedger(), Cell(20120, "EUNA.DE")) == Some(2.0)
    ensures LatestTradePrice(FixtureLedger(), Cell(20148, "EUNA.DE")) == Some(1.0)
    ensures LatestTradePrice(FixtureLedger(), Cell(20148, "IWDA")) == Some(3.0)
  {
    FixtureLatestPrice(Cell(20089, "IWDA"), 0);
    FixtureLatestPrice(Cell(20120, "EUNA.DE"), 3);
    FixtureLatestPrice(Cell(20148, "EUNA.DE"), 1);
    FixtureLatestPrice(Cell(20148, "IWDA"), 4);
  }

  /** The fixture's trade `k` is the last of its cell. */
  lemma FixtureLatestPrice(c: Cell, k: nat)
    requires k < 5 && TradeCell(FixtureLedger()[k]) == c
    requires forall j :: 0 <= j < 5 && TradeCell(FixtureLedger()[j]) == c ==> NotAfter(FixtureLedger()[j].tradeDate, FixtureLedger()[k].tradeDate)
    ensures LatestTradePrice(FixtureLedger(), c) == Some(FixtureLedger()[k].price)
  {
    FixtureTimestampsDistinct();
    LatestTradePriceAt(FixtureLedger(), c, k);
  }

  /** One row of the fixture's `daily_positions()` from its closed form. */
  lemma FixtureRow(p: Portfolio, i: nat, c: Cell, price: Option<real>, position: Option<real>, close: Option<real>)
    requires p.txns == FixtureLedger() && UniqueQuoteCells(p.quotes)
    requires i < |TableCells(p)| && TableCells(p)[i] == c
    requires LatestTradePrice(p.txns, c) == price
    requires HoldingThrough(p.txns, c.symbol, c.date, Units) == position
    requires CloseOn(p.quotes, c) == close
    ensures i < |DailyPositions(p)| && DailyPositions(p)[i] == DailyPosition(c.date, c.symbol, price, position, close)
  {
    FixtureTimestampsDistinct();
    DailyPositionsClosedForm(p);
  }

  /** The rows of the fixture's daily positions without quotes, from their closed form. */
  lemma RowsWithoutQuotes(p: Portfolio)
    requires p.txns == FixtureLedger() && |p.quotes| == 0
    ensures UniqueQuoteCells(p.quotes) && |DailyPositions(p)| == 6
    ensures DailyPositions(p)[0] == DailyPosition(20089, "EUNA.DE", None, None, None)
    ensures DailyPositions(p)[1] == DailyPosition(20089, "IWDA", Some(1.0), Some(1.0), None)
    ensures DailyPositions(p)[2] == DailyPosition(20120, "EUNA.DE", Some(2.0), Some(2.0), None)
    ensures DailyPositions(p)[3] == DailyPosition(20120, "IWDA", None, Some(1.0), None)
    ensures DailyPositions(p)[4] == DailyPosition(20148, "EUNA.DE", Some(1.0), Some(1.0), None)
    ensures DailyPositions(p)[5] == DailyPosition(20148, "IWDA", Some(3.0), Some(5.0), None)
  {
    FixtureCells(p);
    var r := DailyPositions(p);
    assert r[0] == DailyPosition(20089, "EUNA.DE", None, None, None) by {
      FixtureHoldings();
      FixtureNoTrades();
      FixtureRow(p, 0, Cell(20089, "EUNA.DE"), None, None, None);
    }
    assert r[1] == DailyPosition(20089, "IWDA", Some(1.0), Some(1.0), None) by {
      FixtureHoldings();
      FixtureLatestPrices();
      FixtureRow(p, 1, Cell(20089, "IWDA"), Some(1.0), Some(1.0), None);
    }
    assert r[2] == DailyPosition(20120, "EUNA.DE", Some(2.0), Some(2.0), None) by {
      FixtureHoldings();
      FixtureLatestPrices();
      FixtureRow(p, 2, Cell(20120, "EUNA.DE"), Some(2.0), Some(2.0), None);
    }
    assert r[3] == DailyPosition(20120, "IWDA", None, Some(1.0), None) by {
      FixtureHoldings();
      FixtureNoTrades();
      FixtureRow(p, 3, Cell(20120, "IWDA"), None, Some(1.0), None);
    }
    assert r[4] == DailyPosition(20148, "EUNA.DE", Some(1.0), Some(1.0), None) by {
      FixtureHoldings();
      FixtureLatestPrices();
      FixtureRow(p, 4, Cell(20148, "EUNA.DE"), Some(1.0), Some(1.0), None);
    }
    assert r[5] == DailyPosition(20148, "IWDA", Some(3.0), Some(5.0), None) by {
      FixtureHoldings();
      FixtureLatestPrices();
      FixtureRow(p, 5, Cell(20148, "IWDA"), Some(3.0), Some(5.0), None);
    }
  }

  /** Six rows that match the fixture's table row by row are that table. */
  lemma MatchesPositionsWithoutQuotes(r: seq<DailyPosition>)
    requires |r| == 6
    requires r[0] == DailyPosition(20089, "EUNA.DE", None, None, None)
    requires r[1] == DailyPosition(20089, "IWDA", Some(1.0), Some(1.0), None)
    requires r[2] == DailyPosition(20120, "EUNA.DE", Some(2.0), Some(2.0), None)
    requires r[3] == DailyPosition(20120, "IWDA", None, Some(1.0), None)
    requires r[4] == DailyPosition(20148, "EUNA.DE", Some(1.0), Some(1.0), None)
    requires r[5] == DailyPosition(20148, "IWDA", Some(3.0), Some(5.0), None)
    ensures r == ExpectedPositionsWithoutQuotes()
  {
    SixRows(r, ExpectedPositionsWithoutQuotes());
  }

  lemma PositionsWithoutQuotes(p: Portfolio)
    requires p.txns == FixtureLedger() && |p.quotes| == 0
    ensures DailyPositions(p) == ExpectedPositionsWithoutQuotes()
  {
    RowsWithoutQuotes(p);
    MatchesPositionsWithoutQuotes(DailyPositions(p));
  }

  lemma SixRows<T>(r: seq<T>, e: seq<T>)
    requires |r| == |e| == 6
    requires r[0] == e[0] && r[1] == e[1] && r[2] == e[2] && r[3] == e[3] && r[4] == e[4] && r[5] == e[5]
    ensures r == e
  {
    assert forall i :: 0 <= i < 6 ==> r[i] == e[i];
  }

  /** The expected `daily_valuations()` without quotes, less the extension
      columns (tests/test_portfolio.py:72-80). */
  function ExpectedValuationsWithoutQuotes(): seq<DailyValuation> {
    [ DailyValuation(20089, "EUNA.DE", None, None, None, None),
      DailyValuation(20089, "IWDA", Some(1.0), Some(1.0), None, Some(1.0)),
      DailyValuation(20120, "EUNA.DE", Some(2.0), Some(2.0), None, Some(4.0)),
      DailyValuation(20120, "IWDA", None, Some(1.0), None, Some(1.0)),
      DailyValuation(20148, "EUNA.DE", Some(1.0), Some(1.0), None, Some(1.0)),
      DailyValuation(20148, "IWDA", Some(3.0), Some(5.0), None, Some(15.0)) ]
  }

  lemma FixtureValuesWithoutQuotes()
    ensures WithValues(ExpectedPositionsWithoutQuotes()) == ExpectedValuationsWithoutQuotes()
  {
    var pos, e := ExpectedPositionsWithoutQuotes(), ExpectedValuationsWithoutQuotes();
    var vals := WithValues(pos);
    WithValuesValue(pos);
    assert IsFirstOf(vals, 0);
    assert IsPreviousOf(vals, 1, 3);
    assert vals[1].value == Some(1.0 * 1.0);
    assert vals[2].value == Some(2.0 * 2.0);
    assert vals[4].value == Some(1.0 * 1.0);
    assert vals[5].value == Some(5.0 * 3.0);
    forall i | 0 <= i < 6 ensures vals[i].Position() == pos[i] { }
    SixRows(vals, e);
  }

  /** The fixture without a quote fetcher, whatever the current date: the
      daily positions and daily valuations of the tests. */
  lemma ScenarioWithoutQuotes(today: Day)
    ensures NewPortfolio(FixtureLedger(), None, today) == Success(Portfolio(FixtureLedger(), []))
    ensures DailyPositions(Portfolio(FixtureLedger(), [])) == ExpectedPositionsWithoutQuotes()
    ensures DailyValuations(Portfolio(FixtureLedger(), [])) == ExpectedValuationsWithoutQuotes()
    ensures Positions(Portfolio(FixtureLedger(), [])) == ExpectedHoldingsWithoutQuotes()
  {
    Invariance.DefaultFetcher(FixtureLedger(), today, today);
    PositionsWithoutQuotes(Portfolio(FixtureLedger(), []));
    ValuationsWithoutQuotes(Portfolio(FixtureLedger(), []));
    HoldingsWithoutQuotes(Portfolio(FixtureLedger(), []));
  }

  lemma ValuationsWithoutQuotes(p: Portfolio)
    requires p.txns == FixtureLedger() && |p.quotes| == 0
    ensures UniqueQuoteCells(p.quotes) && DailyValuations(p) == ExpectedValuationsWithoutQuotes()
  {
    PositionsWithoutQuotes(p);
    FixtureValuesWithoutQuotes();
  }

  /** The expected `positions()` without quotes, less the extension columns
      (tests/test_portfolio.py:105-114). */
  function ExpectedHoldingsWithoutQuotes(): seq<Holding> {
    [ Holding("EUNA.DE", Some(1.0), Some(1.0)),
      Holding("IWDA", Some(5.0), Some(15.0)) ]
  }

  lemma AxesWithoutQuotes(p: Portfolio)
    requires p.txns == FixtureLedger() && |p.quotes| == 0
    ensures UniqueQuoteCells(p.quotes) && |Positions(p)| == 2
    ensures TableSymbols(p) == ["EUNA.DE", "IWDA"]
    ensures |TableDates(p)| > 0 && LatestDate(p) == 20148
  {
    FixtureDates(p);
    FixtureSymbols(p.quotes);
  }

  lemma LastRowsWithoutQuotes(p: Portfolio)
    requires p.txns == FixtureLedger() && |p.quotes| == 0
    ensures UniqueQuoteCells(p.quotes) && |DailyValuations(p)| == 6
    ensures DailyValuations(p)[4] == DailyValuation(20148, "EUNA.DE", Some(1.0), Some(1.0), None, Some(1.0))
    ensures DailyValuations(p)[5] == DailyValuation(20148, "IWDA", Some(3.0), Some(5.0), None, Some(15.0))
  {
    ValuationsWithoutQuotes(p);
  }

  lemma HoldingsWithoutQuotes(p: Portfolio)
    requires p.txns == FixtureLedger() && |p.quotes| == 0
    ensures UniqueQuoteCells(p.quotes) && Positions(p) == ExpectedHoldingsWithoutQuotes()
  {
    var r := Positions(p);
    AxesWithoutQuotes(p);
    LastRowsWithoutQuotes(p);
    HoldingIsRow(p, 0, 4);
    HoldingIsRow(p, 1, 5);
    TwoRows(r, ExpectedHoldingsWithoutQuotes());
  }

  lemma TwoRows<T>(r: seq<T>, e: seq<T>)
    requires |r| == |e| == 2 && r[0] == e[0] && r[1] == e[1]
    ensures r == e
  {
    assert forall i :: 0 <= i < 2 ==> r[i] == e[i];
  }

  /** The mock fetcher's quote table (tests/test_portfolio.py:12-21). */
  function MockQuotes(): seq<Quote> {
    [ Quote(20088, "IWDA", Some(0.9)),
      Quote(20089, "IWDA", Some(1.1)),
      Quote(20103, "IWDA", Some(2.0)),
      Quote(20162, "IWDA", Some(4.0)),
      Quote(20162, "EUNA.DE", Some(2.0)) ]
  }

  /** The quotes of one symbol, in table order. */
  function QuotesFor(quotes: seq<Quote>, s: Symbol): (r: seq<Quote>)
    ensures forall q :: q in r <==> q in quotes && q.symbol == s
  {
    if |quotes| == 0 then []
    else (if quotes[0].symbol == s then [quotes[0]] else []) + QuotesFor(quotes[1..], s)
  }

  /** Selecting one symbol's quotes keeps the cells unique. */
  lemma {:induction false} QuotesForUnique(quotes: seq<Quote>, s: Symbol)
    requires UniqueQuoteCells(quotes)
    ensures UniqueQuoteCells(QuotesFor(quotes, s))
  {
    if |quotes| > 0 {
      var rest := quotes[1..];
      assert UniqueQuoteCells(rest) by {
        assert forall i :: 0 <= i < |rest| ==> rest[i] == quotes[i + 1];
      }
      QuotesForUnique(rest, s);
      var tail := QuotesFor(rest, s);
      if quotes[0].symbol == s {
        forall j | 0 <= j < |tail|
          ensures QuoteCell(quotes[0]) != QuoteCell(tail[j])
        {
          assert tail[j] in rest;
          var k :| 0 <= k < |rest| && rest[k] == tail[j];
          assert rest[k] == quotes[k + 1];
        }
        assert QuotesFor(quotes, s) == [quotes[0]] + tail;
      } else {
        assert QuotesFor(quotes, s) == tail;
      }
    }
  }

  /** `MockQuoteFetcher.get_oed_prices`: the table's rows for the symbol,
      whatever the requested range. */
  function MockFetcher(s: Symbol, from: Day, to: Day): (r: seq<Quote>)
    ensures forall q :: q in r <==> q in MockQuotes() && q.symbol == s
  {
    QuotesFor(MockQuotes(), s)
  }

  lemma MockQuotesUnique()
    ensures UniqueQuoteCells(MockQuotes())
  {
  }

  lemma MockFetcherServesOwnSymbol()
    ensures ServesOwnSymbol(MockFetcher)
  {
    MockQuotesUnique();
    forall s, from: Day, to: Day
      ensures UniqueQuoteCells(MockFetcher(s, from, to))
    {
      QuotesForUnique(MockQuotes(), s);
    }
  }

  /** A quote table with the mock table's quotes, in any order, each cell once. */
  ghost predicate MockTable(quotes: seq<Quote>) {
    UniqueQuoteCells(quotes) && forall q :: q in quotes <==> q in MockQuotes()
  }

  lemma MockQuoteDate(quotes: seq<Quote>, k: nat)
    requires MockTable(quotes) && k < |MockQuotes()|
    ensures exists i :: 0 <= i < |quotes| && quotes[i].date == MockQuotes()[k].date
  {
    assert MockQuotes()[k] in quotes;
    var i :| 0 <= i < |quotes| && quotes[i] == MockQuotes()[k];
  }

  /** A date is in the mock table's grid exactly when a trade or a mock quote falls on it. */
  lemma MockTableDate(p: Portfolio, d: Day)
    requires p.txns == FixtureLedger() && MockTable(p.quotes)
    ensures IsTableDate(p, d) <==> d in [20088, 20089, 20103, 20120, 20148, 20162]
  {
    if d in [20088, 20103, 20162] {
      var k := if d == 20088 then 0 else if d == 20103 then 2 else 3;
      MockQuoteDate(p.quotes, k);
    } else if d in [20089, 20120, 20148] {
      assert d == p.txns[0].tradeDate.day || d == p.txns[3].tradeDate.day || d == p.txns[1].tradeDate.day;
    } else if exists i :: 0 <= i < |p.quotes| && p.quotes[i].date == d {
      var i :| 0 <= i < |p.quotes| && p.quotes[i].date == d;
      assert p.quotes[i] in MockQuotes();
    }
  }

  lemma MockDates(p: Portfolio)
    requires p.txns == FixtureLedger() && MockTable(p.quotes)
    ensures TableDates(p) == [20088, 20089, 20103, 20120, 20148, 20162]
  {
    var expected := [20088, 20089, 20103, 20120, 20148, 20162];
    forall d ensures d in TableDates(p) <==> d in expected {
      MockTableDate(p, d);
    }
    IntLessIsStrictTotalOrder();
    SortedIsCanonical(TableDates(p), expected, IntLess);
  }

  lemma MockCells()
    ensures |GridCells([20088, 20089, 20103, 20120, 20148, 20162], ["EUNA.DE", "IWDA"])| == 12
    ensures GridCells([20088, 20089, 20103, 20120, 20148, 20162], ["EUNA.DE", "IWDA"])[0] == Cell(20088, "EUNA.DE")
    ensures GridCells([20088, 20089, 20103, 20120, 20148, 20162], ["EUNA.DE", "IWDA"])[1] == Cell(20088, "IWDA")
    ensures GridCells([20088, 20089, 20103, 20120, 20148, 20162], ["EUNA.DE", "IWDA"])[2] == Cell(20089, "EUNA.DE")
    ensures GridCells([20088, 20089, 20103, 20120, 20148, 20162], ["EUNA.DE", "IWDA"])[3] == Cell(20089, "IWDA")
    ensures GridCells([20088, 20089, 20103, 20120, 20148, 20162], ["EUNA.DE", "IWDA"])[4] == Cell(20103, "EUNA.DE")
    ensures GridCells([20088, 20089, 20103, 20120, 20148, 20162], ["EUNA.DE", "IWDA"])[5] == Cell(20103, "IWDA")
    ensures GridCells([20088, 20089, 20103, 20120, 20148, 20162], ["EUNA.DE", "IWDA"])[6] == Cell(20120, "EUNA.DE")
    ensures GridCells([20088, 20089, 20103, 20120, 20148, 20162], ["EUNA.DE", "IWDA"])[7] == Cell(20120, "IWDA")
    ensures GridCells([20088, 20089, 20103, 20120, 20148, 20162], ["EUNA.DE", "IWDA"])[8] == Cell(20148, "EUNA.DE")
    ensures GridCells([20088, 20089, 20103, 20120, 20148, 20162], ["EUNA.DE", "IWDA"])[9] == Cell(20148, "IWDA")
    ensures GridCells([20088, 20089, 20103, 20120, 20148, 20162], ["EUNA.DE", "IWDA"])[10] == Cell(20162, "EUNA.DE")
    ensures GridCells([20088, 20089, 20103, 20120, 20148, 20162], ["EUNA.DE", "IWDA"])[11] == Cell(20162, "IWDA")
  {
    var ds, syms := [20088, 20089, 20103, 20120, 20148, 20162], ["EUNA.DE", "IWDA"];
    GridCellAt(ds, syms, 0, 0);
    GridCellAt(ds, syms, 0, 1);
    GridCellAt(ds, syms, 1, 0);
    GridCellAt(ds, syms, 1, 1);
    GridCellAt(ds, syms, 2, 0);
    GridCellAt(ds, syms, 2, 1);
    GridCellAt(ds, syms, 3, 0);
    GridCellAt(ds, syms, 3, 1);
    GridCellAt(ds, syms, 4, 0);
    GridCellAt(ds, syms, 4, 1);
    GridCellAt(ds, syms, 5, 0);
    GridCellAt(ds, syms, 5, 1);
  }

  lemma MockHoldings()
    ensures HoldingThrough(FixtureLedger(), "EUNA.DE", 20088, Units) == None
    ensures HoldingThrough(FixtureLedger(), "IWDA", 20088, Units) == None
    ensures HoldingThrough(FixtureLedger(), "EUNA.DE", 20103, Units) == None
    ensures HoldingThrough(FixtureLedger(), "IWDA", 20103, Units) == Some(1.0)
    ensures HoldingThrough(FixtureLedger(), "EUNA.DE", 20162, Units) == Some(1.0)
    ensures HoldingThrough(FixtureLedger(), "IWDA", 20162, Units) == Some(5.0)
  {
    var l := FixtureLedger();
    assert l[0].symbol == "IWDA" && l[3].symbol == "EUNA.DE";
  }

  lemma MockNoTrades()
    ensures LatestTradePrice(FixtureLedger(), Cell(20088, "EUNA.DE")) == None
    ensures LatestTradePrice(FixtureLedger(), Cell(20088, "IWDA")) == None
    ensures LatestTradePrice(FixtureLedger(), Cell(20103, "EUNA.DE")) == None
    ensures LatestTradePrice(FixtureLedger(), Cell(20103, "IWDA")) == None
    ensures LatestTradePrice(FixtureLedger(), Cell(20162, "EUNA.DE")) == None
    ensures LatestTradePrice(FixtureLedger(), Cell(20162, "IWDA")) == None
  {
    var l := FixtureLedger();
    assert forall i :: 0 <= i < |l| ==> l[i].tradeDate.day in {20089, 20120, 20148};
  }

  /** The mock table's closes on its quoted cells. */
  lemma MockCloses()
    ensures CloseOn(MockQuotes(), Cell(20088, "IWDA")) == Some(0.9)
    ensures CloseOn(MockQuotes(), Cell(20089, "IWDA")) == Some(1.1)
    ensures CloseOn(MockQuotes(), Cell(20103, "IWDA")) == Some(2.0)
    ensures CloseOn(MockQuotes(), Cell(20162, "IWDA")) == Some(4.0)
    ensures CloseOn(MockQuotes(), Cell(20162, "EUNA.DE")) == Some(2.0)
  {
    var q := MockQuotes();
    MockQuotesUnique();
    CloseOnUniqueQuote(q, 0);
    CloseOnUniqueQuote(q, 1);
    CloseOnUniqueQuote(q, 2);
    CloseOnUniqueQuote(q, 3);
    CloseOnUniqueQuote(q, 4);
  }

  /** No close on a cell the mock table does not quote. */
  lemma MockUnquoted(c: Cell)
    requires c.symbol == "EUNA.DE" ==> c.date != 20162
    requires c.symbol == "IWDA" ==> c.date != 20088 && c.date != 20089 && c.date != 20103 && c.date != 20162
    ensures CloseOn(MockQuotes(), c) == None
  {
    var q := MockQuotes();
    assert forall i :: 0 <= i < |q| ==> QuoteCell(q[i]) != c;
  }

  /** The expected `daily_positions()` with the mock quotes, less the
      `invested` column (tests/test_portfolio.py:49-63). */
  function ExpectedPositionsWithQuotes(): seq<DailyPosition> {
    [ DailyPosition(20088, "EUNA.DE", None, None, None),
      DailyPosition(20088, "IWDA", None, None, Some(0.9)),
      DailyPosition(20089, "EUNA.DE", None, None, None),
      DailyPosition(20089, "IWDA", Some(1.0), Some(1.0), Some(1.1)),
      DailyPosition(20103, "EUNA.DE", None, None, None),
      DailyPosition(20103, "IWDA", None, Some(1.0), Some(2.0)),
      DailyPosition(20120, "EUNA.DE", Some(2.0), Some(2.0), None),
      DailyPosition(20120, "IWDA", None, Some(1.0), None),
      DailyPosition(20148, "EUNA.DE", Some(1.0), Some(1.0), None),
      DailyPosition(20148, "IWDA", Some(3.0), Some(5.0), None),
      DailyPosition(20162, "EUNA.DE", None, Some(1.0), Some(2.0)),
      DailyPosition(20162, "IWDA", None, Some(5.0), Some(4.0)) ]
  }

  lemma TwelveRows<T>(r: seq<T>, e: seq<T>)
    requires |r| == |e| == 12
    requires r[0] == e[0] && r[1] == e[1] && r[2] == e[2] && r[3] == e[3] && r[4] == e[4] && r[5] == e[5]
    requires r[6] == e[6] && r[7] == e[7] && r[8] == e[8] && r[9] == e[9] && r[10] == e[10] && r[11] == e[11]
    ensures r == e
  {
    assert forall i :: 0 <= i < 12 ==> r[i] == e[i];
  }

  /** The grid of a mock portfolio. */
  lemma MockFacts(p: Portfolio)
    requires p.txns == FixtureLedger() && MockTable(p.quotes)
    ensures |TableCells(p)| == 12
    ensures TableCells(p)[0] == Cell(20088, "EUNA.DE")
    ensures TableCells(p)[1] == Cell(20088, "IWDA")
    ensures TableCells(p)[2] == Cell(20089, "EUNA.DE")
    ensures TableCells(p)[3] == Cell(20089, "IWDA")
    ensures TableCells(p)[4] == Cell(20103, "EUNA.DE")
    ensures TableCells(p)[5] == Cell(20103, "IWDA")
    ensures TableCells(p)[6] == Cell(20120, "EUNA.DE")
    ensures TableCells(p)[7] == Cell(20120, "IWDA")
    ensures TableCells(p)[8] == Cell(20148, "EUNA.DE")
    ensures TableCells(p)[9] == Cell(20148, "IWDA")
    ensures TableCells(p)[10] == Cell(20162, "EUNA.DE")
    ensures TableCells(p)[11] == Cell(20162, "IWDA")
  {
    MockAxes(p);
    MockCells();
  }

  lemma MockAxes(p: Portfolio)
    requires p.txns == FixtureLedger() && MockTable(p.quotes)
    ensures TableDates(p) == [20088, 20089, 20103, 20120, 20148, 20162]
    ensures TableSymbols(p) == ["EUNA.DE", "IWDA"]
    ensures TableCells(p) == GridCells([20088, 20089, 20103, 20120, 20148, 20162], ["EUNA.DE", "IWDA"])
  {
    MockDates(p);
    forall k | 0 <= k < |p.quotes| ensures p.quotes[k].symbol == "IWDA" || p.quotes[k].symbol == "EUNA.DE" {
      assert p.quotes[k] in MockQuotes();
    }
    FixtureSymbols(p.quotes);
  }

  /** A mock table closes where the mock fetcher's table does. */
  lemma MockClose(quotes: seq<Quote>, c: Cell)
    requires MockTable(quotes)
    ensures CloseOn(quotes, c) == CloseOn(MockQuotes(), c)
  {
    MockQuotesUnique();
    Invariance.SameClose(quotes, MockQuotes(), c);
  }

  /** The rows of a mock portfolio's daily positions, from their closed form. */
  lemma MockRows(p: Portfolio)
    requires p.txns == FixtureLedger() && MockTable(p.quotes)
    ensures |DailyPositions(p)| == 12
    ensures DailyPositions(p)[0] == DailyPosition(20088, "EUNA.DE", None, None, None)
    ensures DailyPositions(p)[1] == DailyPosition(20088, "IWDA", None, None, Some(0.9))
    ensures DailyPositions(p)[2] == DailyPosition(20089, "EUNA.DE", None, None, None)
    ensures DailyPositions(p)[3] == DailyPosition(20089, "IWDA", Some(1.0), Some(1.0), Some(1.1))
    ensures DailyPositions(p)[4] == DailyPosition(20103, "EUNA.DE", None, None, None)
    ensures DailyPositions(p)[5] == DailyPosition(20103, "IWDA", None, Some(1.0), Some(2.0))
    ensures DailyPositions(p)[6] == DailyPosition(20120, "EUNA.DE", Some(2.0), Some(2.0), None)
    ensures DailyPositions(p)[7] == DailyPosition(20120, "IWDA", None, Some(1.0), None)
    ensures DailyPositions(p)[8] == DailyPosition(20148, "EUNA.DE", Some(1.0), Some(1.0), None)
    ensures DailyPositions(p)[9] == DailyPosition(20148, "IWDA", Some(3.0), Some(5.0), None)
    ensures DailyPositions(p)[10] == DailyPosition(20162, "EUNA.DE", None, Some(1.0), Some(2.0))
    ensures DailyPositions(p)[11] == DailyPosition(20162, "IWDA", None, Some(5.0), Some(4.0))
  {
    var r := DailyPositions(p);
    MockFacts(p);
    assert r[0] == DailyPosition(20088, "EUNA.DE", None, None, None) by {
      MockHoldings();
      MockNoTrades();
      MockClose(p.quotes, Cell(20088, "EUNA.DE"));
      MockUnquoted(Cell(20088, "EUNA.DE"));
      FixtureRow(p, 0, Cell(20088, "EUNA.DE"), None, None, None);
    }
    assert r[1] == DailyPosition(20088, "IWDA", None, None, Some(0.9)) by {
      MockHoldings();
      MockNoTrades();
      MockClose(p.quotes, Cell(20088, "IWDA"));
      MockCloses();
      FixtureRow(p, 1, Cell(20088, "IWDA"), None, None, Some(0.9));
    }
    assert r[2] == DailyPosition(20089, "EUNA.DE", None, None, None) by {
      FixtureHoldings();
      FixtureNoTrades();
      MockClose(p.quotes, Cell(20089, "EUNA.DE"));
      MockUnquoted(Cell(20089, "EUNA.DE"));
      FixtureRow(p, 2, Cell(20089, "EUNA.DE"), None, None, None);
    }
    assert r[3] == DailyPosition(20089, "IWDA", Some(1.0), Some(1.0), Some(1.1)) by {
      FixtureHoldings();
      FixtureLatestPrices();
      MockClose(p.quotes, Cell(20089, "IWDA"));
      MockCloses();
      FixtureRow(p, 3, Cell(20089, "IWDA"), Some(1.0), Some(1.0), Some(1.1));
    }
    assert r[4] == DailyPosition(20103, "EUNA.DE", None, None, None) by {
      MockHoldings();
      MockNoTrades();
      MockClose(p.quotes, Cell(20103, "EUNA.DE"));
      MockUnquoted(Cell(20103, "EUNA.DE"));
      FixtureRow(p, 4, Cell(20103, "EUNA.DE"), None, None, None);
    }
    assert r[5] == DailyPosition(20103, "IWDA", None, Some(1.0), Some(2.0)) by {
      MockHoldings();
      MockNoTrades();
      MockClose(p.quotes, Cell(20103, "IWDA"));
      MockCloses();
      FixtureRow(p, 5, Cell(20103, "IWDA"), None, Some(1.0), Some(2.0));
    }
    assert r[6] == DailyPosition(20120, "EUNA.DE", Some(2.0), Some(2.0), None) by {
      FixtureHoldings();
      FixtureLatestPrices();
      MockClose(p.quotes, Cell(20120, "EUNA.DE"));
      MockUnquoted(Cell(20120, "EUNA.DE"));
      FixtureRow(p, 6, Cell(20120, "EUNA.DE"), Some(2.0), Some(2.0), None);
    }
    assert r[7] == DailyPosition(20120, "IWDA", None, Some(1.0), None) by {
      FixtureHoldings();
      FixtureNoTrades();
      MockClose(p.quotes, Cell(20120, "IWDA"));
      MockUnquoted(Cell(20120, "IWDA"));
      FixtureRow(p, 7, Cell(20120, "IWDA"), None, Some(1.0), None);
    }
    assert r[8] == DailyPosition(20148, "EUNA.DE", Some(1.0), Some(1.0), None) by {
      FixtureHoldings();
      FixtureLatestPrices();
      MockClose(p.quotes, Cell(20148, "EUNA.DE"));
      MockUnquoted(Cell(20148, "EUNA.DE"));
      FixtureRow(p, 8, Cell(20148, "EUNA.DE"), Some(1.0), Some(1.0), None);
    }
    assert r[9] == DailyPosition(20148, "IWDA", Some(3.0), Some(5.0), None) by {
      FixtureHoldings();
      FixtureLatestPrices();
      MockClose(p.quotes, Cell(20148, "IWDA"));
      MockUnquoted(Cell(20148, "IWDA"));
      FixtureRow(p, 9, Cell(20148, "IWDA"), Some(3.0), Some(5.0), None);
    }
    assert r[10] == DailyPosition(20162, "EUNA.DE", None, Some(1.0), Some(2.0)) by {
      MockHoldings();
      MockNoTrades();
      MockClose(p.quotes, Cell(20162, "EUNA.DE"));
      MockCloses();
      FixtureRow(p, 10, Cell(20162, "EUNA.DE"), None, Some(1.0), Some(2.0));
    }
    assert r[11] == DailyPosition(20162, "IWDA", None, Some(5.0), Some(4.0)) by {
      MockHoldings();
      MockNoTrades();
      MockClose(p.quotes, Cell(20162, "IWDA"));
      MockCloses();
      FixtureRow(p, 11, Cell(20162, "IWDA"), None, Some(5.0), Some(4.0));
    }
  }

  /** Twelve rows that match the mock table row by row are the mock table. */
  lemma MatchesPositionsWithQuotes(r: seq<DailyPosition>)
    requires |r| == 12
    requires r[0] == DailyPosition(20088, "EUNA.DE", None, None, None)
    requires r[1] == DailyPosition(20088, "IWDA", None, None, Some(0.9))
    requires r[2] == DailyPosition(20089, "EUNA.DE", None, None, None)
    requires r[3] == DailyPosition(20089, "IWDA", Some(1.0), Some(1.0), Some(1.1))
    requires r[4] == DailyPosition(20103, "EUNA.DE", None, None, None)
    requires r[5] == DailyPosition(20103, "IWDA", None, Some(1.0), Some(2.0))
    requires r[6] == DailyPosition(20120, "EUNA.DE", Some(2.0), Some(2.0), None)
    requires r[7] == DailyPosition(20120, "IWDA", None, Some(1.0), None)
    requires r[8] == DailyPosition(20148, "EUNA.DE", Some(1.0), Some(1.0), None)
    requires r[9] == DailyPosition(20148, "IWDA", Some(3.0), Some(5.0), None)
    requires r[10] == DailyPosition(20162, "EUNA.DE", None, Some(1.0), Some(2.0))
    requires r[11] == DailyPosition(20162, "IWDA", None, Some(5.0), Some(4.0))
    ensures r == ExpectedPositionsWithQuotes()
  {
    TwelveRows(r, ExpectedPositionsWithQuotes());
  }

  lemma PositionsWithQuotes(p: Portfolio)
    requires p.txns == FixtureLedger() && MockTable(p.quotes)
    ensures DailyPositions(p) == ExpectedPositionsWithQuotes()
  {
    MockRows(p);
    MatchesPositionsWithQuotes(DailyPositions(p));
  }

  /** The expected `daily_valuations()` with the mock quotes, less the
      extension columns (tests/test_portfolio.py:86-101). */
  function ExpectedValuationsWithQuotes(): seq<DailyValuation> {
    [ DailyValuation(20088, "EUNA.DE", None, None, None, None),
      DailyValuation(20088, "IWDA", None, None, Some(0.9), None),
      DailyValuation(20089, "EUNA.DE", None, None, None, None),
      DailyValuation(20089, "IWDA", Some(1.0), Some(1.0), Some(1.1), Some(1.0)),
      DailyValuation(20103, "EUNA.DE", None, None, None, None),
      DailyValuation(20103, "IWDA", None, Some(1.0), Some(2.0), Some(2.0)),
      DailyValuation(20120, "EUNA.DE", Some(2.0), Some(2.0), None, Some(4.0)),
      DailyValuation(20120, "IWDA", None, Some(1.0), None, Some(2.0)),
      DailyValuation(20148, "EUNA.DE", Some(1.0), Some(1.0), None, Some(1.0)),
      DailyValuation(20148, "IWDA", Some(3.0), Some(5.0), None, Some(15.0)),
      DailyValuation(20162, "EUNA.DE", None, Some(1.0), Some(2.0), Some(2.0)),
      DailyValuation(20162, "IWDA", None, Some(5.0), Some(4.0), Some(20.0)) ]
  }

  /** The value column of the mock table's daily positions: trade price
      first, then close, then the symbol's previous value. */
  lemma ValueColumnWithQuotes(pos: seq<DailyPosition>)
    requires |pos| == 12
    requires pos[0] == DailyPosition(20088, "EUNA.DE", None, None, None)
    requires pos[1] == DailyPosition(20088, "IWDA", None, None, Some(0.9))
    requires pos[2] == DailyPosition(20089, "EUNA.DE", None, None, None)
    requires pos[3] == DailyPosition(20089, "IWDA", Some(1.0), Some(1.0), Some(1.1))
    requires pos[4] == DailyPosition(20103, "EUNA.DE", None, None, None)
    requires pos[5] == DailyPosition(20103, "IWDA", None, Some(1.0), Some(2.0))
    requires pos[6] == DailyPosition(20120, "EUNA.DE", Some(2.0), Some(2.0), None)
    requires pos[7] == DailyPosition(20120, "IWDA", None, Some(1.0), None)
    requires pos[8] == DailyPosition(20148, "EUNA.DE", Some(1.0), Some(1.0), None)
    requires pos[9] == DailyPosition(20148, "IWDA", Some(3.0), Some(5.0), None)
    requires pos[10] == DailyPosition(20162, "EUNA.DE", None, Some(1.0), Some(2.0))
    requires pos[11] == DailyPosition(20162, "IWDA", None, Some(5.0), Some(4.0))
    ensures |WithValues(pos)| == 12
    ensures WithValues(pos)[0].value == None
    ensures WithValues(pos)[1].value == None
    ensures WithValues(pos)[2].value == None
    ensures WithValues(pos)[3].value == Some(1.0)
    ensures WithValues(pos)[4].value == None
    ensures WithValues(pos)[5].value == Some(2.0)
    ensures WithValues(pos)[6].value == Some(4.0)
    ensures WithValues(pos)[7].value == Some(2.0)
    ensures WithValues(pos)[8].value == Some(1.0)
    ensures WithValues(pos)[9].value == Some(15.0)
    ensures WithValues(pos)[10].value == Some(2.0)
    ensures WithValues(pos)[11].value == Some(20.0)
  {
    var vals := WithValues(pos);
    WithValuesValue(pos);
    assert IsFirstOf(vals, 0) && IsFirstOf(vals, 1);
    assert IsPreviousOf(vals, 0, 2) && IsPreviousOf(vals, 2, 4) && IsPreviousOf(vals, 5, 7);
    assert vals[3].value == Some(1.0 * 1.0);
    assert vals[5].value == Some(1.0 * 2.0);
    assert vals[6].value == Some(2.0 * 2.0);
    assert vals[8].value == Some(1.0 * 1.0);
    assert vals[9].value == Some(5.0 * 3.0);
    assert vals[10].value == Some(1.0 * 2.0);
    assert vals[11].value == Some(5.0 * 4.0);
  }

  /** Valuing the mock table's daily positions. */
  lemma ValuesWithQuotes(pos: seq<DailyPosition>)
    requires |pos| == 12
    requires pos[0] == DailyPosition(20088, "EUNA.DE", None, None, None)
    requires pos[1] == DailyPosition(20088, "IWDA", None, None, Some(0.9))
    requires pos[2] == DailyPosition(20089, "EUNA.DE", None, None, None)
    requires pos[3] == DailyPosition(20089, "IWDA", Some(1.0), Some(1.0), Some(1.1))
    requires pos[4] == DailyPosition(20103, "EUNA.DE", None, None, None)
    requires pos[5] == DailyPosition(20103, "IWDA", None, Some(1.0), Some(2.0))
    requires pos[6] == DailyPosition(20120, "EUNA.DE", Some(2.0), Some(2.0), None)
    requires pos[7] == DailyPosition(20120, "IWDA", None, Some(1.0), None)
    requires pos[8] == DailyPosition(20148, "EUNA.DE", Some(1.0), Some(1.0), None)
    requires pos[9] == DailyPosition(20148, "IWDA", Some(3.0), Some(5.0), None)
    requires pos[10] == DailyPosition(20162, "EUNA.DE", None, Some(1.0), Some(2.0))
    requires pos[11] == DailyPosition(20162, "IWDA", None, Some(5.0), Some(4.0))
    ensures WithValues(pos) == ExpectedValuationsWithQuotes()
  {
    var vals := WithValues(pos);
    ValueColumnWithQuotes(pos);
    forall i | 0 <= i < 12 ensures vals[i].Position() == pos[i] { }
    TwelveRows(vals, ExpectedValuationsWithQuotes());
  }

  /** The rows of a mock portfolio's daily valuations. */
  lemma ValuationRowsWithQuotes(p: Portfolio)
    requires p.txns == FixtureLedger() && MockTable(p.quotes)
    ensures UniqueQuoteCells(p.quotes) && |DailyValuations(p)| == 12
    ensures DailyValuations(p)[0] == DailyValuation(20088, "EUNA.DE", None, None, None, None)
    ensures DailyValuations(p)[1] == DailyValuation(20088, "IWDA", None, None, Some(0.9), None)
    ensures DailyValuations(p)[2] == DailyValuation(20089, "EUNA.DE", None, None, None, None)
    ensures DailyValuations(p)[3] == DailyValuation(20089, "IWDA", Some(1.0), Some(1.0), Some(1.1), Some(1.0))
    ensures DailyValuations(p)[4] == DailyValuation(20103, "EUNA.DE", None, None, None, None)
    ensures DailyValuations(p)[5] == DailyValuation(20103, "IWDA", None, Some(1.0), Some(2.0), Some(2.0))
    ensures DailyValuations(p)[6] == DailyValuation(20120, "EUNA.DE", Some(2.0), Some(2.0), None, Some(4.0))
    ensures DailyValuations(p)[7] == DailyValuation(20120, "IWDA", None, Some(1.0), None, Some(2.0))
    ensures DailyValuations(p)[8] == DailyValuation(20148, "EUNA.DE", Some(1.0), Some(1.0), None, Some(1.0))
    ensures DailyValuations(p)[9] == DailyValuation(20148, "IWDA", Some(3.0), Some(5.0), None, Some(15.0))
    ensures DailyValuations(p)[10] == DailyValuation(20162, "EUNA.DE", None, Some(1.0), Some(2.0), Some(2.0))
    ensures DailyValuations(p)[11] == DailyValuation(20162, "IWDA", None, Some(5.0), Some(4.0), Some(20.0))
  {
    MockRows(p);
    ValueColumnWithQuotes(DailyPositions(p));
  }

  /** Twelve valuation rows that match the mock table row by row are that table. */
  lemma MatchesValuationsWithQuotes(r: seq<DailyValuation>)
    requires |r| == 12
    requires r[0] == DailyValuation(20088, "EUNA.DE", None, None, None, None)
    requires r[1] == DailyValuation(20088, "IWDA", None, None, Some(0.9), None)
    requires r[2] == DailyValuation(20089, "EUNA.DE", None, None, None, None)
    requires r[3] == DailyValuation(20089, "IWDA", Some(1.0), Some(1.0), Some(1.1), Some(1.0))
    requires r[4] == DailyValuation(20103, "EUNA.DE", None, None, None, None)
    requires r[5] == DailyValuation(20103, "IWDA", None, Some(1.0), Some(2.0), Some(2.0))
    requires r[6] == DailyValuation(20120, "EUNA.DE", Some(2.0), Some(2.0), None, Some(4.0))
    requires r[7] == DailyValuation(20120, "IWDA", None, Some(1.0), None, Some(2.0))
    requires r[8] == DailyValuation(20148, "EUNA.DE", Some(1.0), Some(1.0), None, Some(1.0))
    requires r[9] == DailyValuation(20148, "IWDA", Some(3.0), Some(5.0), None, Some(15.0))
    requires r[10] == DailyValuation(20162, "EUNA.DE", None, Some(1.0), Some(2.0), Some(2.0))
    requires r[11] == DailyValuation(20162, "IWDA", None, Some(5.0), Some(4.0), Some(20.0))
    ensures r == ExpectedValuationsWithQuotes()
  {
    TwelveRows(r, ExpectedValuationsWithQuotes());
  }

  lemma ValuationsWithQuotes(p: Portfolio)
    requires p.txns == FixtureLedger() && MockTable(p.quotes)
    ensures UniqueQuoteCells(p.quotes) && DailyValuations(p) == ExpectedValuationsWithQuotes()
  {
    ValuationRowsWithQuotes(p);
    MatchesValuationsWithQuotes(DailyValuations(p));
  }

  /** The expected `positions()` with the mock quotes, less the extension
      columns (tests/test_portfolio.py:115-123). */
  function ExpectedHoldingsWithQuotes(): seq<Holding> {
    [ Holding("EUNA.DE", Some(1.0), Some(2.0)),
      Holding("IWDA", Some(5.0), Some(20.0)) ]
  }

  lemma AxesWithQuotes(p: Portfolio)
    requires p.txns == FixtureLedger() && MockTable(p.quotes)
    ensures UniqueQuoteCells(p.quotes) && |Positions(p)| == 2
    ensures TableSymbols(p) == ["EUNA.DE", "IWDA"]
    ensures |TableDates(p)| > 0 && LatestDate(p) == 20162
  {
    MockAxes(p);
  }

  lemma LastRowsWithQuotes(p: Portfolio)
    requires p.txns == FixtureLedger() && MockTable(p.quotes)
    ensures UniqueQuoteCells(p.quotes) && |DailyValuations(p)| == 12
    ensures DailyValuations(p)[10] == DailyValuation(20162, "EUNA.DE", None, Some(1.0), Some(2.0), Some(2.0))
    ensures DailyValuations(p)[11] == DailyValuation(20162, "IWDA", None, Some(5.0), Some(4.0), Some(20.0))
  {
    ValuationsWithQuotes(p);
  }

  lemma HoldingsWithQuotes(p: Portfolio)
    requires p.txns == FixtureLedger() && MockTable(p.quotes)
    ensures UniqueQuoteCells(p.quotes) && Positions(p) == ExpectedHoldingsWithQuotes()
  {
    var r := Positions(p);
    AxesWithQuotes(p);
    LastRowsWithQuotes(p);
    HoldingIsRow(p, 0, 10);
    HoldingIsRow(p, 1, 11);
    TwoRows(r, ExpectedHoldingsWithQuotes());
  }

  /** Asking the mock fetcher for every traded symbol yields the mock table. */
  lemma MockRequested(from: Day, to: Day, q: Quote)
    ensures (exists i :: 0 <= i < |FixtureLedger()| && q in MockFetcher(FixtureLedger()[i].symbol, from, to)) <==> q in MockQuotes()
  {
    var txns := FixtureLedger();
    if q in MockQuotes() {
      var k := if q.symbol == "IWDA" then 0 else 1;
      assert q in MockFetcher(txns[k].symbol, from, to);
    }
  }

  lemma MockConstruction(today: Day)
    ensures NewPortfolio(FixtureLedger(), Some(MockFetcher), today).Success?
    ensures NewPortfolio(FixtureLedger(), Some(MockFetcher), today).value.txns == FixtureLedger()
    ensures MockTable(NewPortfolio(FixtureLedger(), Some(MockFetcher), today).value.quotes)
  {
    var txns := FixtureLedger();
    var p := NewPortfolio(txns, Some(MockFetcher), today).value;
    MockFetcherServesOwnSymbol();
    Invariance.ConstructedQuotesUnique(txns, Some(MockFetcher), today);
    var from, to := FirstTradeDay(txns), QuoteRangeEnd(txns, today);
    assert SourceOrDefault(Some(MockFetcher)) == MockFetcher;
    forall q ensures q in p.quotes <==> q in MockQuotes() {
      MockRequested(from, to, q);
    }
  }

  /** The fixture with the mock fetcher, whatever the current date: the
      daily positions and daily valuations of the tests. */
  lemma ScenarioWithQuotes(today: Day)
    ensures NewPortfolio(FixtureLedger(), Some(MockFetcher), today).Success?
    ensures var p := NewPortfolio(FixtureLedger(), Some(MockFetcher), today).value;
            UniqueQuoteCells(p.quotes) && DailyPositions(p) == ExpectedPositionsWithQuotes()
    ensures var p := NewPortfolio(FixtureLedger(), Some(MockFetcher), today).value;
            UniqueQuoteCells(p.quotes) && DailyValuations(p) == ExpectedValuationsWithQuotes()
    ensures var p := NewPortfolio(FixtureLedger(), Some(MockFetcher), today).value;
            UniqueQuoteCells(p.quotes) && Positions(p) == ExpectedHoldingsWithQuotes()
  {
    MockConstruction(today);
    var p := NewPortfolio(FixtureLedger(), Some(MockFetcher), today).value;
    PositionsWithQuotes(p);
    ValuationsWithQuotes(p);
    HoldingsWithQuotes(p);
  }
}
