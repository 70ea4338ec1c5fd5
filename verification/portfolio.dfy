/** `PortfolioPerformance`: construction from a ledger and a quote source, and
    the three queries `daily_positions`, `daily_valuations` and `positions`. */
module Portfolio {
  import opened Wrappers
  import opened Ordering
  import opened Ledger
  import opened Fill
  import opened Quotes
  import opened Running
  import opened Grid

  /** A portfolio holds its ledger and the quote table gathered at construction. */
  datatype Portfolio = Portfolio(txns: seq<Transaction>, quotes: seq<Quote>)

  /** Construction fails on an empty ledger: `reduce` is given no quote table at all. */
  datatype Error = EmptyLedger

  function FirstTradeDay(txns: seq<Transaction>): (d: Day)
    requires |txns| > 0
    ensures exists i :: 0 <= i < |txns| && txns[i].tradeDate.day == d
    ensures forall i :: 0 <= i < |txns| ==> d <= txns[i].tradeDate.day
  {
    if |txns| == 1 then txns[0].tradeDate.day
    else
      var rest := FirstTradeDay(txns[1..]);
      assert forall i :: 1 <= i < |txns| ==> txns[1..][i - 1] == txns[i];
      if txns[0].tradeDate.day <= rest then txns[0].tradeDate.day else rest
  }

  function LastTradeDay(txns: seq<Transaction>): (d: Day)
    requires |txns| > 0
    ensures exists i :: 0 <= i < |txns| && txns[i].tradeDate.day == d
    ensures forall i :: 0 <= i < |txns| ==> txns[i].tradeDate.day <= d
  {
    if |txns| == 1 then txns[0].tradeDate.day
    else
      var rest := LastTradeDay(txns[1..]);
      assert forall i :: 1 <= i < |txns| ==> txns[1..][i - 1] == txns[i];
      if txns[0].tradeDate.day >= rest then txns[0].tradeDate.day else rest
  }

  function SymbolsOfLedger(txns: seq<Transaction>): (r: seq<Symbol>)
    ensures forall s :: s in r <==> exists i :: 0 <= i < |txns| && txns[i].symbol == s
  {
    if |txns| == 0 then []
    else
      assert forall i :: 1 <= i < |txns| ==> txns[1..][i - 1] == txns[i];
      [txns[0].symbol] + SymbolsOfLedger(txns[1..])
  }

  function DaysOfLedger(txns: seq<Transaction>): (r: seq<Day>)
    ensures forall d :: d in r <==> exists i :: 0 <= i < |txns| && txns[i].tradeDate.day == d
  {
    if |txns| == 0 then []
    else
      assert forall i :: 1 <= i < |txns| ==> txns[1..][i - 1] == txns[i];
      [txns[0].tradeDate.day] + DaysOfLedger(txns[1..])
  }

  function QuoteDates(quotes: seq<Quote>): (r: seq<Day>)
    ensures forall d :: d in r <==> exists i :: 0 <= i < |quotes| && quotes[i].date == d
  {
    if |quotes| == 0 then []
    else
      assert forall i :: 1 <= i < |quotes| ==> quotes[1..][i - 1] == quotes[i];
      [quotes[0].date] + QuoteDates(quotes[1..])
  }

  function QuoteSymbols(quotes: seq<Quote>): (r: seq<Symbol>)
    ensures forall s :: s in r <==> exists i :: 0 <= i < |quotes| && quotes[i].symbol == s
  {
    var r := SymbolsOf(seq(|quotes|, i requires 0 <= i < |quotes| => QuoteCell(quotes[i])));
    assert forall i :: 0 <= i < |quotes| ==> r[i] == quotes[i].symbol;
    r
  }

  /** The end of the quote range: the last trade day, or today if that is later. */
  function QuoteRangeEnd(txns: seq<Transaction>, today: Day): Day
    requires |txns| > 0
  {
    if LastTradeDay(txns) >= today then LastTradeDay(txns) else today
  }

  /** `PortfolioPerformance(transactions, quote_fetcher)`: quotes are requested
      once per distinct ledger symbol, from the first trade day up to the later
      of the last trade day and `today`, and concatenated. */
  function NewPortfolio(txns: seq<Transaction>, source: Option<QuoteSource>, today: Day): (r: Result<Portfolio, Error>)
    ensures r.Failure? <==> |txns| == 0
    ensures r.Success? ==> r.value.txns == txns
    ensures r.Success? ==> forall q :: q in r.value.quotes <==>
              exists i :: 0 <= i < |txns|
                       && q in SourceOrDefault(source)(txns[i].symbol, FirstTradeDay(txns), QuoteRangeEnd(txns, today))
  {
    if |txns| == 0 then Failure(EmptyLedger)
    else
      var syms := UniqueInOrder(SymbolsOfLedger(txns));
      var from, to := FirstTradeDay(txns), QuoteRangeEnd(txns, today);
      var quotes := GatherQuotes(syms, SourceOrDefault(source), from, to);
      assert forall q :: q in quotes <==>
               exists i :: 0 <= i < |txns| && q in SourceOrDefault(source)(txns[i].symbol, from, to) by {
        forall q | q in quotes
          ensures exists i :: 0 <= i < |txns| && q in SourceOrDefault(source)(txns[i].symbol, from, to)
        {
          var k :| 0 <= k < |syms| && q in SourceOrDefault(source)(syms[k], from, to);
          assert syms[k] in SymbolsOfLedger(txns);
        }
        forall q, i | 0 <= i < |txns| && q in SourceOrDefault(source)(txns[i].symbol, from, to)
          ensures q in quotes
        {
          assert txns[i].symbol in syms;
          var k :| 0 <= k < |syms| && syms[k] == txns[i].symbol;
        }
      }
      Success(Portfolio(txns, quotes))
  }

  /** One row of `daily_positions()`. */
  datatype DailyPosition = DailyPosition(date: Day, symbol: Symbol, price: Option<real>, position: Option<real>, close: Option<real>) {
    function Key(): Cell { Cell(date, symbol) }
  }

  /** One row of `daily_valuations()`: a daily position with its value. */
  datatype DailyValuation = DailyValuation(date: Day, symbol: Symbol, price: Option<real>, position: Option<real>,
                                           close: Option<real>, value: Option<real>) {
    function Key(): Cell { Cell(date, symbol) }
    /** The row without its `value` column. */
    function Position(): DailyPosition { DailyPosition(date, symbol, price, position, close) }
  }

  /** One row of `positions()`. */
  datatype Holding = Holding(symbol: Symbol, position: Option<real>, value: Option<real>)

  /** A date of the merged table: a trade day or a quote date. */
  ghost predicate IsTableDate(p: Portfolio, d: Day) {
    || (exists i :: 0 <= i < |p.txns| && p.txns[i].tradeDate.day == d)
    || (exists i :: 0 <= i < |p.quotes| && p.quotes[i].date == d)
  }

  /** A symbol of the merged table: a traded or a quoted symbol. */
  ghost predicate IsTableSymbol(p: Portfolio, s: Symbol) {
    || (exists i :: 0 <= i < |p.txns| && p.txns[i].symbol == s)
    || (exists i :: 0 <= i < |p.quotes| && p.quotes[i].symbol == s)
  }

  /** The distinct dates of the merged table, ascending. */
  function TableDates(p: Portfolio): (r: seq<Day>)
    ensures StrictlySorted(r, IntLess)
    ensures forall d :: d in r <==> IsTableDate(p, d)
  {
    IntLessIsStrictTotalOrder();
    SortedUnique(DaysOfLedger(p.txns) + QuoteDates(p.quotes), IntLess)
  }

  /** The distinct symbols of the merged table, ascending. */
  function TableSymbols(p: Portfolio): (r: seq<Symbol>)
    ensures StrictlySorted(r, StringLess)
    ensures forall s :: s in r <==> IsTableSymbol(p, s)
  {
    StringLessIsStrictTotalOrder();
    SortedUnique(SymbolsOfLedger(p.txns) + QuoteSymbols(p.quotes), StringLess)
  }

  /** The (date, symbol) cells of the reconstructed tables, in row order. */
  function TableCells(p: Portfolio): seq<Cell> {
    GridCells(TableDates(p), TableSymbols(p))
  }

  function Totals(snaps: map<Cell, Snapshot>): (r: map<Cell, real>)
    ensures r.Keys == snaps.Keys
    ensures forall c :: c in r ==> r[c] == snaps[c].total
  {
    map c | c in snaps :: snaps[c].total
  }

  /** The `price` column: the snapshot price of a cell with trades, else absent. */
  function PriceOn(snaps: map<Cell, Snapshot>, c: Cell): Option<real> {
    if c in snaps then Some(snaps[c].price) else None
  }

  /** `daily_positions()`: running positions per trade, their end-of-day
      snapshots merged with the quotes onto the full grid, and `position`
      forward-filled per symbol. */
  function DailyPositions(p: Portfolio): (rows: seq<DailyPosition>)
    requires UniqueQuoteCells(p.quotes)
    ensures |rows| == |TableCells(p)|
    ensures forall i :: 0 <= i < |rows| ==> rows[i].Key() == TableCells(p)[i]
  {
    var snaps := SnapshotTable(p.txns, Units);
    var cells := TableCells(p);
    var filled := FilledOnGrid(Totals(snaps), TableDates(p), TableSymbols(p));
    seq(|cells|, i requires 0 <= i < |cells| && |filled| == |cells| =>
      DailyPosition(cells[i].date, cells[i].symbol, PriceOn(snaps, cells[i]), filled[i], CloseOn(p.quotes, cells[i])))
  }

  /** Grid completeness and order: the rows' cells are exactly the table's
      dates crossed with the table's symbols, ascending by date then symbol,
      so none appears twice. */
  lemma DailyPositionsGrid(p: Portfolio)
    requires UniqueQuoteCells(p.quotes)
    ensures forall c :: (exists i :: 0 <= i < |DailyPositions(p)| && DailyPositions(p)[i].Key() == c)
                        <==> IsTableDate(p, c.date) && IsTableSymbol(p, c.symbol)
    ensures forall i, j :: 0 <= i < j < |DailyPositions(p)| ==>
              CellLess(DailyPositions(p)[i].Key(), DailyPositions(p)[j].Key())
  {
    var rows, cells := DailyPositions(p), TableCells(p);
    GridSorted(TableDates(p), TableSymbols(p));
    forall c
      ensures (exists i :: 0 <= i < |rows| && rows[i].Key() == c) <==> c in cells
    {
      if c in cells {
        var i :| 0 <= i < |cells| && cells[i] == c;
        assert rows[i].Key() == c;
      }
    }
  }

  /** The table's symbols are distinct and every trade day is one of its dates. */
  lemma TableShape(p: Portfolio)
    ensures Distinct(TableSymbols(p))
    ensures CoversTradeDays(p.txns, TableDates(p))
    ensures forall i :: 0 <= i < |p.txns| ==> p.txns[i].tradeDate.day in TableDates(p)
  {
    StringLessIsStrictTotalOrder();
    var syms := TableSymbols(p);
    assert forall i, j :: 0 <= i < j < |syms| ==> StringLess(syms[i], syms[j]);
    forall i | 0 <= i < |p.txns|
      ensures p.txns[i].tradeDate.day in TableDates(p)
    {
      assert IsTableDate(p, p.txns[i].tradeDate.day);
    }
  }

  /** Running position and forward fill: each row's `position` is absent
      before the symbol's first trade day and afterwards is the sum of
      +quantity per buy and -quantity per sell over the symbol's trades up to
      the end of the row's date; no other symbol contributes. */
  lemma DailyPositionsHolding(p: Portfolio)
    requires UniqueQuoteCells(p.quotes)
    ensures forall i :: 0 <= i < |DailyPositions(p)| ==>
              DailyPositions(p)[i].position == HoldingThrough(p.txns, DailyPositions(p)[i].symbol, DailyPositions(p)[i].date, Units)
  {
    var snaps := SnapshotTable(p.txns, Units);
    SnapshotTableMatchesLedger(p.txns, Units);
    assert KnownOnTradeDays(p.txns, Totals(snaps), Units);
    TableShape(p);
    FilledGridIsHolding(p.txns, Units, Totals(snaps), TableDates(p), TableSymbols(p));
  }

  /** End-of-day snapshot: a row has a `price` exactly when its symbol traded
      that day, and it is the price of the day's latest trade. */
  lemma DailyPositionsPrice(p: Portfolio)
    requires UniqueQuoteCells(p.quotes)
    ensures forall i :: 0 <= i < |DailyPositions(p)| ==>
              (DailyPositions(p)[i].price.Some? <==> TradedOn(p.txns, DailyPositions(p)[i].Key()))
    ensures forall i :: 0 <= i < |DailyPositions(p)| && DailyPositions(p)[i].price.Some? ==>
              IsLatestPrice(p.txns, DailyPositions(p)[i].Key(), DailyPositions(p)[i].price.value)
  {
    SnapshotTableMatchesLedger(p.txns, Units);
  }

  /** A row has a `close` exactly when a quote with a close exists for its
      cell, and it is that quote's close; a quote without one leaves it missing. */
  lemma DailyPositionsClose(p: Portfolio)
    requires UniqueQuoteCells(p.quotes)
    ensures forall i :: 0 <= i < |DailyPositions(p)| ==>
              (DailyPositions(p)[i].close.Some? <==>
                 exists k :: 0 <= k < |p.quotes| && QuoteCell(p.quotes[k]) == DailyPositions(p)[i].Key() && p.quotes[k].close.Some?)
    ensures forall i, k :: 0 <= i < |DailyPositions(p)| && 0 <= k < |p.quotes| && QuoteCell(p.quotes[k]) == DailyPositions(p)[i].Key() ==>
              DailyPositions(p)[i].close == p.quotes[k].close
  {
    forall k | 0 <= k < |p.quotes|
      ensures CloseOn(p.quotes, QuoteCell(p.quotes[k])) == p.quotes[k].close
    {
      CloseOnUniqueQuote(p.quotes, k);
    }
  }

  /** A row can be valued on its own when it has a position and either a trade
      price or a close. */
  predicate Valued(row: DailyPosition) {
    row.position.Some? && (row.price.Some? || row.close.Some?)
  }

  /** The value of a row before filling: the position times the trade price,
      or times the close on a day without trades; absent when a factor is. */
  function RawValue(row: DailyPosition): Option<real> {
    if Valued(row) then Some(row.position.value * row.price.OrElse(row.close).value) else None
  }

  /** The (date, symbol) key of every row. */
  function CellsOf(rows: seq<DailyPosition>): (r: seq<Cell>)
    ensures |r| == |rows| && forall i :: 0 <= i < |rows| ==> r[i] == rows[i].Key()
  {
    seq(|rows|, i requires 0 <= i < |rows| => rows[i].Key())
  }

  function SymbolColumn(rows: seq<DailyPosition>): (r: seq<Symbol>)
    ensures |r| == |rows| && forall i :: 0 <= i < |rows| ==> r[i] == rows[i].symbol
  {
    SymbolsOf(CellsOf(rows))
  }

  function RawValueColumn(rows: seq<DailyPosition>): (r: seq<Option<real>>)
    ensures |r| == |rows| && forall i :: 0 <= i < |rows| ==> r[i] == RawValue(rows[i])
  {
    seq(|rows|, i requires 0 <= i < |rows| => RawValue(rows[i]))
  }

  /** The `value` column added to a table of daily positions: computed per
      row, then forward-filled per symbol. */
  function WithValues(pos: seq<DailyPosition>): (rows: seq<DailyValuation>)
    ensures |rows| == |pos|
    ensures forall i :: 0 <= i < |rows| ==> rows[i].Position() == pos[i]
  {
    var value := FillForward(SymbolColumn(pos), RawValueColumn(pos), map[]);
    seq(|pos|, i requires 0 <= i < |pos| && |value| == |pos| =>
      DailyValuation(pos[i].date, pos[i].symbol, pos[i].price, pos[i].position, pos[i].close, value[i]))
  }

  /** `daily_valuations()`: the daily positions with their `value` column. */
  function DailyValuations(p: Portfolio): (rows: seq<DailyValuation>)
    requires UniqueQuoteCells(p.quotes)
    ensures |rows| == |DailyPositions(p)|
    ensures forall i :: 0 <= i < |rows| ==> rows[i].Position() == DailyPositions(p)[i]
  {
    WithValues(DailyPositions(p))
  }

  /** Row `j` is the row before row `i` of the same symbol. */
  predicate IsPreviousOf(rows: seq<DailyValuation>, j: int, i: int)
    requires 0 <= j < i < |rows|
  {
    rows[j].symbol == rows[i].symbol && forall k :: j < k < i ==> rows[k].symbol != rows[i].symbol
  }

  /** Row `i` is the first row of its symbol. */
  predicate IsFirstOf(rows: seq<DailyValuation>, i: int)
    requires 0 <= i < |rows|
  {
    forall k :: 0 <= k < i ==> rows[k].symbol != rows[i].symbol
  }

  /** Value selection and carry: a row with a position is valued at its trade
      price if it has one and at the close otherwise; a row that cannot be
      valued takes the value of the symbol's previous row, or none on the
      symbol's first row. */
  lemma WithValuesValue(pos: seq<DailyPosition>)
    ensures forall i :: 0 <= i < |pos| && pos[i].position.Some? && pos[i].price.Some? ==>
              WithValues(pos)[i].value == Some(pos[i].position.value * pos[i].price.value)
    ensures forall i :: 0 <= i < |pos| && pos[i].position.Some? && pos[i].price.None? && pos[i].close.Some? ==>
              WithValues(pos)[i].value == Some(pos[i].position.value * pos[i].close.value)
    ensures forall i, j :: 0 <= j < i < |pos| && IsPreviousOf(WithValues(pos), j, i) && !Valued(pos[i]) ==>
              WithValues(pos)[i].value == WithValues(pos)[j].value
    ensures forall i :: 0 <= i < |pos| && IsFirstOf(WithValues(pos), i) && !Valued(pos[i]) ==>
              WithValues(pos)[i].value.None?
  {
    var vals := WithValues(pos);
    var keys, raw := SymbolColumn(pos), RawValueColumn(pos);
    var filled := FillForward(keys, raw, map[]);
    assert forall i :: 0 <= i < |vals| ==> vals[i].value == filled[i];
    forall i | 0 <= i < |pos| && pos[i].position.Some? && pos[i].price.Some?
      ensures vals[i].value == Some(pos[i].position.value * pos[i].price.value)
    {
      var x, y := RawValue(pos[i]), pos[i].position.value * pos[i].price.value;
      assert x.Some? && x.value == y;
      assert raw[i] == x == Some(y);
    }
    forall i | 0 <= i < |pos| && pos[i].position.Some? && pos[i].price.None? && pos[i].close.Some?
      ensures vals[i].value == Some(pos[i].position.value * pos[i].close.value)
    {
      var x, y := RawValue(pos[i]), pos[i].position.value * pos[i].close.value;
      assert x.Some? && x.value == y;
      assert raw[i] == x == Some(y);
    }
    forall i, j | 0 <= j < i < |vals| && IsPreviousOf(vals, j, i) && !Valued(pos[i])
      ensures vals[i].value == vals[j].value
    {
      FillCarries(keys, raw, map[], j, i);
    }
    forall i | 0 <= i < |vals| && IsFirstOf(vals, i) && !Valued(pos[i])
      ensures vals[i].value.None?
    {
      FillStarts(keys, raw, map[], i);
    }
  }

  /** A row that can be valued on its own carries exactly its own value. */
  lemma WithValuesRaw(pos: seq<DailyPosition>)
    ensures forall i :: 0 <= i < |pos| && Valued(pos[i]) ==> WithValues(pos)[i].value == RawValue(pos[i])
  {
    var keys, raw := SymbolColumn(pos), RawValueColumn(pos);
    assert forall i :: 0 <= i < |pos| ==> WithValues(pos)[i].value == FillForward(keys, raw, map[])[i];
  }

  /** With distinct timestamps, every row of `daily_positions()` is given
      by reference definitions on the ledger and the quotes alone. */
  lemma DailyPositionsClosedForm(p: Portfolio)
    requires UniqueQuoteCells(p.quotes) && DistinctTimestamps(p.txns)
    ensures forall i :: 0 <= i < |DailyPositions(p)| ==>
              var c := TableCells(p)[i];
              DailyPositions(p)[i] == DailyPosition(c.date, c.symbol, LatestTradePrice(p.txns, c),
                                                    HoldingThrough(p.txns, c.symbol, c.date, Units), CloseOn(p.quotes, c))
  {
    var rows := DailyPositions(p);
    DailyPositionsHolding(p);
    forall i | 0 <= i < |rows|
      ensures rows[i].price == LatestTradePrice(p.txns, TableCells(p)[i])
    {
      SnapshotPriceIsLatestTrade(p.txns, Units, TableCells(p)[i]);
    }
  }

  /** A value exists exactly from the first row of its symbol that can be
      valued on its own. */
  lemma WithValuesDefined(pos: seq<DailyPosition>)
    ensures forall i :: 0 <= i < |pos| ==>
              (WithValues(pos)[i].value.Some? <==> exists j :: 0 <= j <= i && pos[j].symbol == pos[i].symbol && Valued(pos[j]))
  {
    var vals := WithValues(pos);
    var keys, raw := SymbolColumn(pos), RawValueColumn(pos);
    forall i | 0 <= i < |vals|
      ensures vals[i].value.Some? <==> exists j :: 0 <= j <= i && pos[j].symbol == pos[i].symbol && Valued(pos[j])
    {
      FillDefined(keys, raw, map[], i);
      assert vals[i].value == FillForward(keys, raw, map[])[i];
    }
  }

  /** No value without a position: before a symbol's first trade its rows are
      not valued, however many closes are quoted for it. */
  lemma DailyValuationsNeedPosition(p: Portfolio)
    requires UniqueQuoteCells(p.quotes)
    ensures forall i :: 0 <= i < |DailyValuations(p)| && DailyValuations(p)[i].position.None? ==>
              DailyValuations(p)[i].value.None?
  {
    var pos := DailyPositions(p);
    DailyPositionsGrid(p);
    DailyPositionsHolding(p);
    WithValuesDefined(pos);
    forall i | 0 <= i < |pos| && pos[i].position.None?
      ensures WithValues(pos)[i].value.None?
    {
      forall j | 0 <= j <= i && pos[j].symbol == pos[i].symbol
        ensures !Valued(pos[j])
      {
        StringLessIrreflexive(pos[i].symbol);
        assert j < i ==> CellLess(pos[j].Key(), pos[i].Key());
        HoldingPersists(p.txns, pos[i].symbol, pos[j].date, pos[i].date, Units);
      }
    }
  }

  /** The last grid date: the largest trade day or quote date. */
  function LatestDate(p: Portfolio): (d: Day)
    requires |TableDates(p)| > 0
    ensures IsTableDate(p, d)
    ensures forall e :: IsTableDate(p, e) ==> e <= d
  {
    var dates := TableDates(p);
    assert dates[|dates| - 1] in dates;
    assert forall i :: 0 <= i < |dates| - 1 ==> IntLess(dates[i], dates[|dates| - 1]);
    dates[|dates| - 1]
  }

  /** The valuation rows without their `value` column. */
  function PositionsOf(rows: seq<DailyValuation>): (r: seq<DailyPosition>)
    ensures |r| == |rows| && forall i :: 0 <= i < |rows| ==> r[i] == rows[i].Position()
  {
    seq(|rows|, i requires 0 <= i < |rows| => rows[i].Position())
  }

  function SymbolsOfRows(rows: seq<DailyValuation>): (r: seq<Symbol>)
    ensures |r| == |rows| && forall i :: 0 <= i < |rows| ==> r[i] == rows[i].symbol
  {
    SymbolColumn(PositionsOf(rows))
  }

  function PositionColumn(rows: seq<DailyValuation>): (r: seq<Option<real>>)
    ensures |r| == |rows| && forall i :: 0 <= i < |rows| ==> r[i] == rows[i].position
  {
    seq(|rows|, i requires 0 <= i < |rows| => rows[i].position)
  }

  function ValueColumn(rows: seq<DailyValuation>): (r: seq<Option<real>>)
    ensures |r| == |rows| && forall i :: 0 <= i < |rows| ==> r[i] == rows[i].value
  {
    seq(|rows|, i requires 0 <= i < |rows| => rows[i].value)
  }

  /** `positions()`: per symbol, in symbol order, the last position and the
      last value that are not missing. */
  function Positions(p: Portfolio): (r: seq<Holding>)
    requires UniqueQuoteCells(p.quotes)
    ensures |r| == |TableSymbols(p)|
    ensures forall i :: 0 <= i < |r| ==> r[i].symbol == TableSymbols(p)[i]
  {
    var vals := DailyValuations(p);
    var keys, syms := SymbolsOfRows(vals), TableSymbols(p);
    seq(|syms|, i requires 0 <= i < |syms| =>
      Holding(syms[i], LastDefinedFor(keys, PositionColumn(vals), syms[i]), LastDefinedFor(keys, ValueColumn(vals), syms[i])))
  }

  /** Both columns of the valuations are forward-filled over the row symbols. */
  lemma ColumnsAreFilled(p: Portfolio)
    requires UniqueQuoteCells(p.quotes)
    ensures PositionColumn(DailyValuations(p))
            == FillForward(SymbolsOfRows(DailyValuations(p)), ColumnOn(TableCells(p), Totals(SnapshotTable(p.txns, Units))), map[])
    ensures ValueColumn(DailyValuations(p))
            == FillForward(SymbolsOfRows(DailyValuations(p)), RawValueColumn(DailyPositions(p)), map[])
  {
    var pos, vals := DailyPositions(p), DailyValuations(p);
    assert SymbolsOfRows(vals) == SymbolsOf(TableCells(p));
    assert SymbolsOfRows(vals) == SymbolColumn(pos);
  }

  /** The last row of a table symbol lies on the latest date. */
  lemma LastRowOnLatestDate(p: Portfolio, s: Symbol)
    requires UniqueQuoteCells(p.quotes) && s in TableSymbols(p)
    ensures |TableDates(p)| > 0
    ensures var k := LastIndexBefore(SymbolsOf(TableCells(p)), s, |TableCells(p)|);
            k.Some? && TableCells(p)[k.value] == Cell(LatestDate(p), s)
  {
    var dates := TableDates(p);
    assert IsTableSymbol(p, s);
    if exists i :: 0 <= i < |p.txns| && p.txns[i].symbol == s {
      var i :| 0 <= i < |p.txns| && p.txns[i].symbol == s;
      assert IsTableDate(p, p.txns[i].tradeDate.day);
    } else {
      var i :| 0 <= i < |p.quotes| && p.quotes[i].symbol == s;
      assert IsTableDate(p, p.quotes[i].date);
    }
    var cells := TableCells(p);
    GridSorted(dates, TableSymbols(p));
    assert forall i :: 0 <= i < |cells| ==> cells[i] in cells && cells[i].date in dates;
    LastRowOfSymbol(cells, s, LatestDate(p));
  }

  /** One holding of `positions()` is its symbol's row on the latest date. */
  lemma HoldingIsLatestRow(p: Portfolio, i: nat)
    requires UniqueQuoteCells(p.quotes) && i < |Positions(p)|
    ensures |TableDates(p)| > 0
    ensures exists k :: 0 <= k < |DailyValuations(p)| && DailyValuations(p)[k].Key() == Cell(LatestDate(p), Positions(p)[i].symbol)
                     && Positions(p)[i].position == DailyValuations(p)[k].position
                     && Positions(p)[i].value == DailyValuations(p)[k].value
    ensures Positions(p)[i].position == HoldingThrough(p.txns, Positions(p)[i].symbol, LatestDate(p), Units)
  {
    var vals, r := DailyValuations(p), Positions(p);
    var keys := SymbolsOfRows(vals);
    DailyPositionsHolding(p);
    ColumnsAreFilled(p);
    assert keys == SymbolsOf(TableCells(p));
    var s := r[i].symbol;
    LastRowOnLatestDate(p, s);
    var k := LastIndexBefore(keys, s, |vals|).value;
    LastOfFilled(keys, ColumnOn(TableCells(p), Totals(SnapshotTable(p.txns, Units))), map[], s);
    LastOfFilled(keys, RawValueColumn(DailyPositions(p)), map[], s);
    assert r[i].position == vals[k].position;
    assert r[i].value == vals[k].value;
    assert vals[k].Key() == Cell(LatestDate(p), s);
    assert vals[k].position == DailyPositions(p)[k].position;
  }

  /** `positions()` reports, per symbol, the row of the latest date: the
      position held through it and that row's (possibly carried) value. */
  lemma PositionsAreCurrent(p: Portfolio)
    requires UniqueQuoteCells(p.quotes)
    ensures |Positions(p)| > 0 ==> |TableDates(p)| > 0
    ensures forall i :: 0 <= i < |Positions(p)| ==>
              Positions(p)[i].position == HoldingThrough(p.txns, Positions(p)[i].symbol, LatestDate(p), Units)
    ensures forall i :: 0 <= i < |Positions(p)| ==>
              exists k :: 0 <= k < |DailyValuations(p)| && DailyValuations(p)[k].Key() == Cell(LatestDate(p), Positions(p)[i].symbol)
                       && Positions(p)[i].position == DailyValuations(p)[k].position
                       && Positions(p)[i].value == DailyValuations(p)[k].value
  {
    var r := Positions(p);
    if |r| > 0 {
      HoldingIsLatestRow(p, 0);
    }
    forall i | 0 <= i < |r| {
      HoldingIsLatestRow(p, i);
    }
  }

  /** Rows of the valuation table are told apart by their cell. */
  lemma ValuationKeysDistinct(p: Portfolio, m: nat, k: nat)
    requires UniqueQuoteCells(p.quotes) && m < |DailyValuations(p)| && k < |DailyValuations(p)|
    requires DailyValuations(p)[m].Key() == DailyValuations(p)[k].Key()
    ensures m == k
  {
    var rows, vals := DailyPositions(p), DailyValuations(p);
    DailyPositionsGrid(p);
    assert vals[m].Key() == rows[m].Key() && vals[k].Key() == rows[k].Key();
    forall i, j | 0 <= i < j < |rows|
      ensures rows[i].Key() != rows[j].Key()
    {
      StringLessIrreflexive(rows[j].symbol);
    }
  }

  /** A holding of `positions()` is its symbol's valuation row on the latest date. */
  lemma HoldingIsRow(p: Portfolio, i: nat, k: nat)
    requires UniqueQuoteCells(p.quotes) && i < |Positions(p)| && k < |DailyValuations(p)|
    requires |TableDates(p)| > 0 && DailyValuations(p)[k].Key() == Cell(LatestDate(p), Positions(p)[i].symbol)
    ensures Positions(p)[i].position == DailyValuations(p)[k].position
    ensures Positions(p)[i].value == DailyValuations(p)[k].value
  {
    var vals, r := DailyValuations(p), Positions(p);
    HoldingIsLatestRow(p, i);
    var m :| 0 <= m < |vals| && vals[m].Key() == Cell(LatestDate(p), r[i].symbol)
             && r[i].position == vals[m].position && r[i].value == vals[m].value;
    ValuationKeysDistinct(p, m, k);
  }
}
