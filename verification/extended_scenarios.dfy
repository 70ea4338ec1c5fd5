/** The fixture's `invested` and `pl` columns, and its extended
    `positions()`, worked through the extension model. */
module ExtendedScenarios {
  import opened Wrappers
  import opened Ledger
  import opened Quotes
  import opened Portfolio
  import opened Extension
  import opened Scenarios

  lemma FixtureCapitalEuna()
    ensures HoldingThrough(FixtureLedger(), "EUNA.DE", 20088, Capital) == None
    ensures HoldingThrough(FixtureLedger(), "EUNA.DE", 20089, Capital) == None
    ensures HoldingThrough(FixtureLedger(), "EUNA.DE", 20103, Capital) == None
    ensures HoldingThrough(FixtureLedger(), "EUNA.DE", 20120, Capital) == Some(4.0)
    ensures HoldingThrough(FixtureLedger(), "EUNA.DE", 20148, Capital) == Some(3.0)
    ensures HoldingThrough(FixtureLedger(), "EUNA.DE", 20162, Capital) == Some(3.0)
  {
    var l := FixtureLedger();
    assert l[3].symbol == "EUNA.DE" && l[1].symbol == "EUNA.DE";
  }

  lemma FixtureCapitalIwda()
    ensures HoldingThrough(FixtureLedger(), "IWDA", 20088, Capital) == None
    ensures HoldingThrough(FixtureLedger(), "IWDA", 20089, Capital) == Some(1.0)
    ensures HoldingThrough(FixtureLedger(), "IWDA", 20103, Capital) == Some(1.0)
    ensures HoldingThrough(FixtureLedger(), "IWDA", 20120, Capital) == Some(1.0)
    ensures HoldingThrough(FixtureLedger(), "IWDA", 20148, Capital) == Some(11.0)
    ensures HoldingThrough(FixtureLedger(), "IWDA", 20162, Capital) == Some(11.0)
  {
    var l := FixtureLedger();
    assert l[0].symbol == "IWDA";
  }

  /** The fixture's capital per symbol through each date of either table. */
  lemma FixtureCapital()
    ensures HoldingThrough(FixtureLedger(), "EUNA.DE", 20088, Capital) == None
    ensures HoldingThrough(FixtureLedger(), "IWDA", 20088, Capital) == None
    ensures HoldingThrough(FixtureLedger(), "EUNA.DE", 20089, Capital) == None
    ensures HoldingThrough(FixtureLedger(), "IWDA", 20089, Capital) == Some(1.0)
    ensures HoldingThrough(FixtureLedger(), "EUNA.DE", 20103, Capital) == None
    ensures HoldingThrough(FixtureLedger(), "IWDA", 20103, Capital) == Some(1.0)
    ensures HoldingThrough(FixtureLedger(), "EUNA.DE", 20120, Capital) == Some(4.0)
    ensures HoldingThrough(FixtureLedger(), "IWDA", 20120, Capital) == Some(1.0)
    ensures HoldingThrough(FixtureLedger(), "EUNA.DE", 20148, Capital) == Some(3.0)
    ensures HoldingThrough(FixtureLedger(), "IWDA", 20148, Capital) == Some(11.0)
    ensures HoldingThrough(FixtureLedger(), "EUNA.DE", 20162, Capital) == Some(3.0)
    ensures HoldingThrough(FixtureLedger(), "IWDA", 20162, Capital) == Some(11.0)
  {
    FixtureCapitalEuna();
    FixtureCapitalIwda();
  }

  /** The `invested` cell of grid row `i`. */
  lemma InvestedRow(p: Portfolio, i: nat, c: Cell)
    requires i < |TableCells(p)| && TableCells(p)[i] == c
    ensures InvestedColumn(p)[i] == HoldingThrough(p.txns, c.symbol, c.date, Capital)
  {
    InvestedOnGrid(p);
  }

  lemma InvestedColumnWithoutQuotes(p: Portfolio)
    requires p.txns == FixtureLedger() && |p.quotes| == 0
    ensures |InvestedColumn(p)| == 6
    ensures InvestedColumn(p)[0] == None
    ensures InvestedColumn(p)[1] == Some(1.0)
    ensures InvestedColumn(p)[2] == Some(4.0)
    ensures InvestedColumn(p)[3] == Some(1.0)
    ensures InvestedColumn(p)[4] == Some(3.0)
    ensures InvestedColumn(p)[5] == Some(11.0)
  {
    FixtureCells(p);
    FixtureCapital();
    InvestedRow(p, 0, Cell(20089, "EUNA.DE"));
    InvestedRow(p, 1, Cell(20089, "IWDA"));
    InvestedRow(p, 2, Cell(20120, "EUNA.DE"));
    InvestedRow(p, 3, Cell(20120, "IWDA"));
    InvestedRow(p, 4, Cell(20148, "EUNA.DE"));
    InvestedRow(p, 5, Cell(20148, "IWDA"));
  }

  /** The expected `daily_valuations()` without quotes, with `invested` and `pl`
      (tests/test_portfolio.py:72-80). */
  function ExpectedExtendedWithoutQuotes(): seq<ExtendedValuation> {
    [ ExtendedValuation(20089, "EUNA.DE", None, None, None, None, None, None),
      ExtendedValuation(20089, "IWDA", Some(1.0), Some(1.0), Some(1.0), None, Some(1.0), Some(0.0)),
      ExtendedValuation(20120, "EUNA.DE", Some(2.0), Some(2.0), Some(4.0), None, Some(4.0), Some(0.0)),
      ExtendedValuation(20120, "IWDA", None, Some(1.0), Some(1.0), None, Some(1.0), Some(0.0)),
      ExtendedValuation(20148, "EUNA.DE", Some(1.0), Some(1.0), Some(3.0), None, Some(1.0), Some(-2.0)),
      ExtendedValuation(20148, "IWDA", Some(3.0), Some(5.0), Some(11.0), None, Some(15.0), Some(4.0)) ]
  }

  /** The `pl` column without quotes: value less invested where a row is valued,
      the symbol's previous `pl` elsewhere. */
  lemma PlColumnWithoutQuotes(vals: seq<DailyValuation>, invested: seq<Option<real>>)
    requires |vals| == |invested| == 6
    requires vals[0] == DailyValuation(20089, "EUNA.DE", None, None, None, None) && invested[0] == None
    requires vals[1] == DailyValuation(20089, "IWDA", Some(1.0), Some(1.0), None, Some(1.0)) && invested[1] == Some(1.0)
    requires vals[2] == DailyValuation(20120, "EUNA.DE", Some(2.0), Some(2.0), None, Some(4.0)) && invested[2] == Some(4.0)
    requires vals[3] == DailyValuation(20120, "IWDA", None, Some(1.0), None, Some(1.0)) && invested[3] == Some(1.0)
    requires vals[4] == DailyValuation(20148, "EUNA.DE", Some(1.0), Some(1.0), None, Some(1.0)) && invested[4] == Some(3.0)
    requires vals[5] == DailyValuation(20148, "IWDA", Some(3.0), Some(5.0), None, Some(15.0)) && invested[5] == Some(11.0)
    ensures |WithPl(vals, invested)| == 6
    ensures WithPl(vals, invested)[0].pl == None
    ensures WithPl(vals, invested)[1].pl == Some(0.0)
    ensures WithPl(vals, invested)[2].pl == Some(0.0)
    ensures WithPl(vals, invested)[3].pl == Some(0.0)
    ensures WithPl(vals, invested)[4].pl == Some(-2.0)
    ensures WithPl(vals, invested)[5].pl == Some(4.0)
  {
    var rows := WithPl(vals, invested);
    WithPlValue(vals, invested);
    assert IsFirstOf(vals, 0);
    assert IsPreviousOf(vals, 1, 3);
    assert rows[1].pl == Some(1.0 * 1.0 - 1.0);
    assert rows[2].pl == Some(2.0 * 2.0 - 4.0);
    assert rows[4].pl == Some(1.0 * 1.0 - 3.0);
    assert rows[5].pl == Some(5.0 * 3.0 - 11.0);
  }

  lemma ExtendedRowsWithoutQuotes(vals: seq<DailyValuation>, invested: seq<Option<real>>)
    requires |vals| == |invested| == 6
    requires vals[0] == DailyValuation(20089, "EUNA.DE", None, None, None, None) && invested[0] == None
    requires vals[1] == DailyValuation(20089, "IWDA", Some(1.0), Some(1.0), None, Some(1.0)) && invested[1] == Some(1.0)
    requires vals[2] == DailyValuation(20120, "EUNA.DE", Some(2.0), Some(2.0), None, Some(4.0)) && invested[2] == Some(4.0)
    requires vals[3] == DailyValuation(20120, "IWDA", None, Some(1.0), None, Some(1.0)) && invested[3] == Some(1.0)
    requires vals[4] == DailyValuation(20148, "EUNA.DE", Some(1.0), Some(1.0), None, Some(1.0)) && invested[4] == Some(3.0)
    requires vals[5] == DailyValuation(20148, "IWDA", Some(3.0), Some(5.0), None, Some(15.0)) && invested[5] == Some(11.0)
    ensures |WithPl(vals, invested)| == 6
    ensures WithPl(vals, invested)[0] == ExtendedValuation(20089, "EUNA.DE", None, None, None, None, None, None)
    ensures WithPl(vals, invested)[1] == ExtendedValuation(20089, "IWDA", Some(1.0), Some(1.0), Some(1.0), None, Some(1.0), Some(0.0))
    ensures WithPl(vals, invested)[2] == ExtendedValuation(20120, "EUNA.DE", Some(2.0), Some(2.0), Some(4.0), None, Some(4.0), Some(0.0))
    ensures WithPl(vals, invested)[3] == ExtendedValuation(20120, "IWDA", None, Some(1.0), Some(1.0), None, Some(1.0), Some(0.0))
    ensures WithPl(vals, invested)[4] == ExtendedValuation(20148, "EUNA.DE", Some(1.0), Some(1.0), Some(3.0), None, Some(1.0), Some(-2.0))
    ensures WithPl(vals, invested)[5] == ExtendedValuation(20148, "IWDA", Some(3.0), Some(5.0), Some(11.0), None, Some(15.0), Some(4.0))
  {
    PlColumnWithoutQuotes(vals, invested);
  }

  lemma MatchesExtendedWithoutQuotes(r: seq<ExtendedValuation>)
    requires |r| == 6
    requires r[0] == ExtendedValuation(20089, "EUNA.DE", None, None, None, None, None, None)
    requires r[1] == ExtendedValuation(20089, "IWDA", Some(1.0), Some(1.0), Some(1.0), None, Some(1.0), Some(0.0))
    requires r[2] == ExtendedValuation(20120, "EUNA.DE", Some(2.0), Some(2.0), Some(4.0), None, Some(4.0), Some(0.0))
    requires r[3] == ExtendedValuation(20120, "IWDA", None, Some(1.0), Some(1.0), None, Some(1.0), Some(0.0))
    requires r[4] == ExtendedValuation(20148, "EUNA.DE", Some(1.0), Some(1.0), Some(3.0), None, Some(1.0), Some(-2.0))
    requires r[5] == ExtendedValuation(20148, "IWDA", Some(3.0), Some(5.0), Some(11.0), None, Some(15.0), Some(4.0))
    ensures r == ExpectedExtendedWithoutQuotes()
  {
    SixRows(r, ExpectedExtendedWithoutQuotes());
  }

  lemma ExtendedWithoutQuotesTable(vals: seq<DailyValuation>, invested: seq<Option<real>>)
    requires |vals| == |invested| == 6
    requires vals[0] == DailyValuation(20089, "EUNA.DE", None, None, None, None) && invested[0] == None
    requires vals[1] == DailyValuation(20089, "IWDA", Some(1.0), Some(1.0), None, Some(1.0)) && invested[1] == Some(1.0)
    requires vals[2] == DailyValuation(20120, "EUNA.DE", Some(2.0), Some(2.0), None, Some(4.0)) && invested[2] == Some(4.0)
    requires vals[3] == DailyValuation(20120, "IWDA", None, Some(1.0), None, Some(1.0)) && invested[3] == Some(1.0)
    requires vals[4] == DailyValuation(20148, "EUNA.DE", Some(1.0), Some(1.0), None, Some(1.0)) && invested[4] == Some(3.0)
    requires vals[5] == DailyValuation(20148, "IWDA", Some(3.0), Some(5.0), None, Some(15.0)) && invested[5] == Some(11.0)
    ensures WithPl(vals, invested) == ExpectedExtendedWithoutQuotes()
  {
    ExtendedRowsWithoutQuotes(vals, invested);
    MatchesExtendedWithoutQuotes(WithPl(vals, invested));
  }

  lemma ExtendedValuationsWithoutQuotes(p: Portfolio)
    requires p.txns == FixtureLedger() && |p.quotes| == 0
    ensures UniqueQuoteCells(p.quotes) && ExtendedValuations(p) == ExpectedExtendedWithoutQuotes()
  {
    ValuationsWithoutQuotes(p);
    InvestedColumnWithoutQuotes(p);
    ExtendedWithoutQuotesTable(DailyValuations(p), InvestedColumn(p));
  }

  /** The expected extended `positions()` without quotes (tests/test_portfolio.py:105-114). */
  function ExpectedExtendedHoldingsWithoutQuotes(): seq<ExtendedHolding> {
    [ ExtendedHolding("EUNA.DE", Some(1.0), Some(1.0), Some(3.0), Some(-2.0)),
      ExtendedHolding("IWDA", Some(5.0), Some(15.0), Some(11.0), Some(4.0)) ]
  }

  lemma ExtendedLastRowsWithoutQuotes(p: Portfolio)
    requires p.txns == FixtureLedger() && |p.quotes| == 0
    ensures UniqueQuoteCells(p.quotes) && |ExtendedValuations(p)| == 6
    ensures ExtendedValuations(p)[4] == ExtendedValuation(20148, "EUNA.DE", Some(1.0), Some(1.0), Some(3.0), None, Some(1.0), Some(-2.0))
    ensures ExtendedValuations(p)[5] == ExtendedValuation(20148, "IWDA", Some(3.0), Some(5.0), Some(11.0), None, Some(15.0), Some(4.0))
  {
    ExtendedValuationsWithoutQuotes(p);
  }

  lemma ExtendedHoldingsWithoutQuotes(p: Portfolio)
    requires p.txns == FixtureLedger() && |p.quotes| == 0
    ensures UniqueQuoteCells(p.quotes) && ExtendedPositions(p) == ExpectedExtendedHoldingsWithoutQuotes()
  {
    var r := ExtendedPositions(p);
    HoldingsWithoutQuotes(p);
    AxesWithoutQuotes(p);
    ExtendedLastRowsWithoutQuotes(p);
    ExtendedHoldingIsRow(p, 0, 4);
    ExtendedHoldingIsRow(p, 1, 5);
    TwoRows(r, ExpectedExtendedHoldingsWithoutQuotes());
  }

  lemma InvestedColumnWithQuotes(p: Portfolio)
    requires p.txns == FixtureLedger() && MockTable(p.quotes)
    ensures |InvestedColumn(p)| == 12
    ensures InvestedColumn(p)[0] == None
    ensures InvestedColumn(p)[1] == None
    ensures InvestedColumn(p)[2] == None
    ensures InvestedColumn(p)[3] == Some(1.0)
    ensures InvestedColumn(p)[4] == None
    ensures InvestedColumn(p)[5] == Some(1.0)
    ensures InvestedColumn(p)[6] == Some(4.0)
    ensures InvestedColumn(p)[7] == Some(1.0)
    ensures InvestedColumn(p)[8] == Some(3.0)
    ensures InvestedColumn(p)[9] == Some(11.0)
    ensures InvestedColumn(p)[10] == Some(3.0)
    ensures InvestedColumn(p)[11] == Some(11.0)
  {
    MockFacts(p);
    FixtureCapital();
    InvestedRow(p, 0, Cell(20088, "EUNA.DE"));
    InvestedRow(p, 1, Cell(20088, "IWDA"));
    InvestedRow(p, 2, Cell(20089, "EUNA.DE"));
    InvestedRow(p, 3, Cell(20089, "IWDA"));
    InvestedRow(p, 4, Cell(20103, "EUNA.DE"));
    InvestedRow(p, 5, Cell(20103, "IWDA"));
    InvestedRow(p, 6, Cell(20120, "EUNA.DE"));
    InvestedRow(p, 7, Cell(20120, "IWDA"));
    InvestedRow(p, 8, Cell(20148, "EUNA.DE"));
    InvestedRow(p, 9, Cell(20148, "IWDA"));
    InvestedRow(p, 10, Cell(20162, "EUNA.DE"));
    InvestedRow(p, 11, Cell(20162, "IWDA"));
  }

  /** The expected `daily_valuations()` with the mock quotes, with `invested` and `pl`
      (tests/test_portfolio.py:86-101). */
  function ExpectedExtendedWithQuotes(): seq<ExtendedValuation> {
    [ ExtendedValuation(20088, "EUNA.DE", None, None, None, None, None, None),
      ExtendedValuation(20088, "IWDA", None, None, None, Some(0.9), None, None),
      ExtendedValuation(20089, "EUNA.DE", None, None, None, None, None, None),
      ExtendedValuation(20089, "IWDA", Some(1.0), Some(1.0), Some(1.0), Some(1.1), Some(1.0), Some(0.0)),
      ExtendedValuation(20103, "EUNA.DE", None, None, None, None, None, None),
      ExtendedValuation(20103, "IWDA", None, Some(1.0), Some(1.0), Some(2.0), Some(2.0), Some(1.0)),
      ExtendedValuation(20120, "EUNA.DE", Some(2.0), Some(2.0), Some(4.0), None, Some(4.0), Some(0.0)),
      ExtendedValuation(20120, "IWDA", None, Some(1.0), Some(1.0), None, Some(2.0), Some(1.0)),
      ExtendedValuation(20148, "EUNA.DE", Some(1.0), Some(1.0), Some(3.0), None, Some(1.0), Some(-2.0)),
      ExtendedValuation(20148, "IWDA", Some(3.0), Some(5.0), Some(11.0), None, Some(15.0), Some(4.0)),
      ExtendedValuation(20162, "EUNA.DE", None, Some(1.0), Some(3.0), Some(2.0), Some(2.0), Some(-1.0)),
      ExtendedValuation(20162, "IWDA", None, Some(5.0), Some(11.0), Some(4.0), Some(20.0), Some(9.0)) ]
  }

  lemma PlColumnWithQuotesEarly(vals: seq<DailyValuation>, invested: seq<Option<real>>)
    requires |vals| == |invested| == 12
    requires vals[0] == DailyValuation(20088, "EUNA.DE", None, None, None, None) && invested[0] == None
    requires vals[1] == DailyValuation(20088, "IWDA", None, None, Some(0.9), None) && invested[1] == None
    requires vals[2] == DailyValuation(20089, "EUNA.DE", None, None, None, None) && invested[2] == None
    requires vals[3] == DailyValuation(20089, "IWDA", Some(1.0), Some(1.0), Some(1.1), Some(1.0)) && invested[3] == Some(1.0)
    requires vals[4] == DailyValuation(20103, "EUNA.DE", None, None, None, None) && invested[4] == None
    requires vals[5] == DailyValuation(20103, "IWDA", None, Some(1.0), Some(2.0), Some(2.0)) && invested[5] == Some(1.0)
    ensures WithPl(vals, invested)[0].pl == None
    ensures WithPl(vals, invested)[1].pl == None
    ensures WithPl(vals, invested)[2].pl == None
    ensures WithPl(vals, invested)[3].pl == Some(0.0)
    ensures WithPl(vals, invested)[4].pl == None
    ensures WithPl(vals, invested)[5].pl == Some(1.0)
  {
    PlOfFirstRow(vals, invested, 0);
    PlOfFirstRow(vals, invested, 1);
    PlOfCarriedRow(vals, invested, 0, 2);
    PlOfValuedRow(vals, invested, 3, 0.0);
    PlOfCarriedRow(vals, invested, 2, 4);
    PlOfValuedRow(vals, invested, 5, 1.0);
  }

  lemma PlColumnWithQuotesLate(vals: seq<DailyValuation>, invested: seq<Option<real>>)
    requires |vals| == |invested| == 12
    requires vals[5] == DailyValuation(20103, "IWDA", None, Some(1.0), Some(2.0), Some(2.0)) && invested[5] == Some(1.0)
    requires vals[6] == DailyValuation(20120, "EUNA.DE", Some(2.0), Some(2.0), None, Some(4.0)) && invested[6] == Some(4.0)
    requires vals[7] == DailyValuation(20120, "IWDA", None, Some(1.0), None, Some(2.0)) && invested[7] == Some(1.0)
    requires vals[8] == DailyValuation(20148, "EUNA.DE", Some(1.0), Some(1.0), None, Some(1.0)) && invested[8] == Some(3.0)
    requires vals[9] == DailyValuation(20148, "IWDA", Some(3.0), Some(5.0), None, Some(15.0)) && invested[9] == Some(11.0)
    requires vals[10] == DailyValuation(20162, "EUNA.DE", None, Some(1.0), Some(2.0), Some(2.0)) && invested[10] == Some(3.0)
    requires vals[11] == DailyValuation(20162, "IWDA", None, Some(5.0), Some(4.0), Some(20.0)) && invested[11] == Some(11.0)
    ensures WithPl(vals, invested)[6].pl == Some(0.0)
    ensures WithPl(vals, invested)[7].pl == Some(1.0)
    ensures WithPl(vals, invested)[8].pl == Some(-2.0)
    ensures WithPl(vals, invested)[9].pl == Some(4.0)
    ensures WithPl(vals, invested)[10].pl == Some(-1.0)
    ensures WithPl(vals, invested)[11].pl == Some(9.0)
  {
    PlOfValuedRow(vals, invested, 6, 0.0);
    PlOfCarriedRow(vals, invested, 5, 7);
    PlOfValuedRow(vals, invested, 8, -2.0);
    PlOfValuedRow(vals, invested, 9, 4.0);
    PlOfValuedRow(vals, invested, 10, -1.0);
    PlOfValuedRow(vals, invested, 11, 9.0);
  }

  /** The `pl` column with the mock quotes: value less invested where a row is valued,
      the symbol's previous `pl` elsewhere. */
  lemma PlColumnWithQuotes(vals: seq<DailyValuation>, invested: seq<Option<real>>)
    requires |vals| == |invested| == 12
    requires vals[0] == DailyValuation(20088, "EUNA.DE", None, None, None, None) && invested[0] == None
    requires vals[1] == DailyValuation(20088, "IWDA", None, None, Some(0.9), None) && invested[1] == None
    requires vals[2] == DailyValuation(20089, "EUNA.DE", None, None, None, None) && invested[2] == None
    requires vals[3] == DailyValuation(20089, "IWDA", Some(1.0), Some(1.0), Some(1.1), Some(1.0)) && invested[3] == Some(1.0)
    requires vals[4] == DailyValuation(20103, "EUNA.DE", None, None, None, None) && invested[4] == None
    requires vals[5] == DailyValuation(20103, "IWDA", None, Some(1.0), Some(2.0), Some(2.0)) && invested[5] == Some(1.0)
    requires vals[6] == DailyValuation(20120, "EUNA.DE", Some(2.0), Some(2.0), None, Some(4.0)) && invested[6] == Some(4.0)
    requires vals[7] == DailyValuation(20120, "IWDA", None, Some(1.0), None, Some(2.0)) && invested[7] == Some(1.0)
    requires vals[8] == DailyValuation(20148, "EUNA.DE", Some(1.0), Some(1.0), None, Some(1.0)) && invested[8] == Some(3.0)
    requires vals[9] == DailyValuation(20148, "IWDA", Some(3.0), Some(5.0), None, Some(15.0)) && invested[9] == Some(11.0)
    requires vals[10] == DailyValuation(20162, "EUNA.DE", None, Some(1.0), Some(2.0), Some(2.0)) && invested[10] == Some(3.0)
    requires vals[11] == DailyValuation(20162, "IWDA", None, Some(5.0), Some(4.0), Some(20.0)) && invested[11] == Some(11.0)
    ensures |WithPl(vals, invested)| == 12
    ensures WithPl(vals, invested)[0].pl == None
    ensures WithPl(vals, invested)[1].pl == None
    ensures WithPl(vals, invested)[2].pl == None
    ensures WithPl(vals, invested)[3].pl == Some(0.0)
    ensures WithPl(vals, invested)[4].pl == None
    ensures WithPl(vals, invested)[5].pl == Some(1.0)
    ensures WithPl(vals, invested)[6].pl == Some(0.0)
    ensures WithPl(vals, invested)[7].pl == Some(1.0)
    ensures WithPl(vals, invested)[8].pl == Some(-2.0)
    ensures WithPl(vals, invested)[9].pl == Some(4.0)
    ensures WithPl(vals, invested)[10].pl == Some(-1.0)
    ensures WithPl(vals, invested)[11].pl == Some(9.0)
  {
    PlColumnWithQuotesEarly(vals, invested);
    PlColumnWithQuotesLate(vals, invested);
  }

  lemma ExtendedRowsWithQuotes(vals: seq<DailyValuation>, invested: seq<Option<real>>)
    requires |vals| == |invested| == 12
    requires vals[0] == DailyValuation(20088, "EUNA.DE", None, None, None, None) && invested[0] == None
    requires vals[1] == DailyValuation(20088, "IWDA", None, None, Some(0.9), None) && invested[1] == None
    requires vals[2] == DailyValuation(20089, "EUNA.DE", None, None, None, None) && invested[2] == None
    requires vals[3] == DailyValuation(20089, "IWDA", Some(1.0), Some(1.0), Some(1.1), Some(1.0)) && invested[3] == Some(1.0)
    requires vals[4] == DailyValuation(20103, "EUNA.DE", None, None, None, None) && invested[4] == None
    requires vals[5] == DailyValuation(20103, "IWDA", None, Some(1.0), Some(2.0), Some(2.0)) && invested[5] == Some(1.0)
    requires vals[6] == DailyValuation(20120, "EUNA.DE", Some(2.0), Some(2.0), None, Some(4.0)) && invested[6] == Some(4.0)
    requires vals[7] == DailyValuation(20120, "IWDA", None, Some(1.0), None, Some(2.0)) && invested[7] == Some(1.0)
    requires vals[8] == DailyValuation(20148, "EUNA.DE", Some(1.0), Some(1.0), None, Some(1.0)) && invested[8] == Some(3.0)
    requires vals[9] == DailyValuation(20148, "IWDA", Some(3.0), Some(5.0), None, Some(15.0)) && invested[9] == Some(11.0)
    requires vals[10] == DailyValuation(20162, "EUNA.DE", None, Some(1.0), Some(2.0), Some(2.0)) && invested[10] == Some(3.0)
    requires vals[11] == DailyValuation(20162, "IWDA", None, Some(5.0), Some(4.0), Some(20.0)) && invested[11] == Some(11.0)
    ensures |WithPl(vals, invested)| == 12
    ensures WithPl(vals, invested)[0] == ExtendedValuation(20088, "EUNA.DE", None, None, None, None, None, None)
    ensures WithPl(vals, invested)[1] == ExtendedValuation(20088, "IWDA", None, None, None, Some(0.9), None, None)
    ensures WithPl(vals, invested)[2] == ExtendedValuation(20089, "EUNA.DE", None, None, None, None, None, None)
    ensures WithPl(vals, invested)[3] == ExtendedValuation(20089, "IWDA", Some(1.0), Some(1.0), Some(1.0), Some(1.1), Some(1.0), Some(0.0))
    ensures WithPl(vals, invested)[4] == ExtendedValuation(20103, "EUNA.DE", None, None, None, None, None, None)
    ensures WithPl(vals, invested)[5] == ExtendedValuation(20103, "IWDA", None, Some(1.0), Some(1.0), Some(2.0), Some(2.0), Some(1.0))
    ensures WithPl(vals, invested)[6] == ExtendedValuation(20120, "EUNA.DE", Some(2.0), Some(2.0), Some(4.0), None, Some(4.0), Some(0.0))
    ensures WithPl(vals, invested)[7] == ExtendedValuation(20120, "IWDA", None, Some(1.0), Some(1.0), None, Some(2.0), Some(1.0))
    ensures WithPl(vals, invested)[8] == ExtendedValuation(20148, "EUNA.DE", Some(1.0), Some(1.0), Some(3.0), None, Some(1.0), Some(-2.0))
    ensures WithPl(vals, invested)[9] == ExtendedValuation(20148, "IWDA", Some(3.0), Some(5.0), Some(11.0), None, Some(15.0), Some(4.0))
    ensures WithPl(vals, invested)[10] == ExtendedValuation(20162, "EUNA.DE", None, Some(1.0), Some(3.0), Some(2.0), Some(2.0), Some(-1.0))
    ensures WithPl(vals, invested)[11] == ExtendedValuation(20162, "IWDA", None, Some(5.0), Some(11.0), Some(4.0), Some(20.0), Some(9.0))
  {
    PlColumnWithQuotes(vals, invested);
  }

  lemma MatchesExtendedWithQuotes(r: seq<ExtendedValuation>)
    requires |r| == 12
    requires r[0] == ExtendedValuation(20088, "EUNA.DE", None, None, None, None, None, None)
    requires r[1] == ExtendedValuation(20088, "IWDA", None, None, None, Some(0.9), None, None)
    requires r[2] == ExtendedValuation(20089, "EUNA.DE", None, None, None, None, None, None)
    requires r[3] == ExtendedValuation(20089, "IWDA", Some(1.0), Some(1.0), Some(1.0), Some(1.1), Some(1.0), Some(0.0))
    requires r[4] == ExtendedValuation(20103, "EUNA.DE", None, None, None, None, None, None)
    requires r[5] == ExtendedValuation(20103, "IWDA", None, Some(1.0), Some(1.0), Some(2.0), Some(2.0), Some(1.0))
    requires r[6] == ExtendedValuation(20120, "EUNA.DE", Some(2.0), Some(2.0), Some(4.0), None, Some(4.0), Some(0.0))
    requires r[7] == ExtendedValuation(20120, "IWDA", None, Some(1.0), Some(1.0), None, Some(2.0), Some(1.0))
    requires r[8] == ExtendedValuation(20148, "EUNA.DE", Some(1.0), Some(1.0), Some(3.0), None, Some(1.0), Some(-2.0))
    requires r[9] == ExtendedValuation(20148, "IWDA", Some(3.0), Some(5.0), Some(11.0), None, Some(15.0), Some(4.0))
    requires r[10] == ExtendedValuation(20162, "EUNA.DE", None, Some(1.0), Some(3.0), Some(2.0), Some(2.0), Some(-1.0))
    requires r[11] == ExtendedValuation(20162, "IWDA", None, Some(5.0), Some(11.0), Some(4.0), Some(20.0), Some(9.0))
    ensures r == ExpectedExtendedWithQuotes()
  {
    TwelveRows(r, ExpectedExtendedWithQuotes());
  }

  lemma ExtendedWithQuotesTable(vals: seq<DailyValuation>, invested: seq<Option<real>>)
    requires |vals| == |invested| == 12
    requires vals[0] == DailyValuation(20088, "EUNA.DE", None, None, None, None) && invested[0] == None
    requires vals[1] == DailyValuation(20088, "IWDA", None, None, Some(0.9), None) && invested[1] == None
    requires vals[2] == DailyValuation(20089, "EUNA.DE", None, None, None, None) && invested[2] == None
    requires vals[3] == DailyValuation(20089, "IWDA", Some(1.0), Some(1.0), Some(1.1), Some(1.0)) && invested[3] == Some(1.0)
    requires vals[4] == DailyValuation(20103, "EUNA.DE", None, None, None, None) && invested[4] == None
    requires vals[5] == DailyValuation(20103, "IWDA", None, Some(1.0), Some(2.0), Some(2.0)) && invested[5] == Some(1.0)
    requires vals[6] == DailyValuation(20120, "EUNA.DE", Some(2.0), Some(2.0), None, Some(4.0)) && invested[6] == Some(4.0)
    requires vals[7] == DailyValuation(20120, "IWDA", None, Some(1.0), None, Some(2.0)) && invested[7] == Some(1.0)
    requires vals[8] == DailyValuation(20148, "EUNA.DE", Some(1.0), Some(1.0), None, Some(1.0)) && invested[8] == Some(3.0)
    requires vals[9] == DailyValuation(20148, "IWDA", Some(3.0), Some(5.0), None, Some(15.0)) && invested[9] == Some(11.0)
    requires vals[10] == DailyValuation(20162, "EUNA.DE", None, Some(1.0), Some(2.0), Some(2.0)) && invested[10] == Some(3.0)
    requires vals[11] == DailyValuation(20162, "IWDA", None, Some(5.0), Some(4.0), Some(20.0)) && invested[11] == Some(11.0)
    ensures WithPl(vals, invested) == ExpectedExtendedWithQuotes()
  {
    ExtendedRowsWithQuotes(vals, invested);
    MatchesExtendedWithQuotes(WithPl(vals, invested));
  }

  lemma ExtendedValuationsWithQuotes(p: Portfolio)
    requires p.txns == FixtureLedger() && MockTable(p.quotes)
    ensures UniqueQuoteCells(p.quotes) && ExtendedValuations(p) == ExpectedExtendedWithQuotes()
  {
    ValuationRowsWithQuotes(p);
    InvestedColumnWithQuotes(p);
    ExtendedWithQuotesTable(DailyValuations(p), InvestedColumn(p));
  }

  /** The expected extended `positions()` with the mock quotes (tests/test_portfolio.py:115-123). */
  function ExpectedExtendedHoldingsWithQuotes(): seq<ExtendedHolding> {
    [ ExtendedHolding("EUNA.DE", Some(1.0), Some(2.0), Some(3.0), Some(-1.0)),
      ExtendedHolding("IWDA", Some(5.0), Some(20.0), Some(11.0), Some(9.0)) ]
  }

  lemma ExtendedLastRowsWithQuotes(p: Portfolio)
    requires p.txns == FixtureLedger() && MockTable(p.quotes)
    ensures UniqueQuoteCells(p.quotes) && |ExtendedValuations(p)| == 12
    ensures ExtendedValuations(p)[10] == ExtendedValuation(20162, "EUNA.DE", None, Some(1.0), Some(3.0), Some(2.0), Some(2.0), Some(-1.0))
    ensures ExtendedValuations(p)[11] == ExtendedValuation(20162, "IWDA", None, Some(5.0), Some(11.0), Some(4.0), Some(20.0), Some(9.0))
  {
    ExtendedValuationsWithQuotes(p);
  }

  lemma ExtendedHoldingsWithQuotes(p: Portfolio)
    requires p.txns == FixtureLedger() && MockTable(p.quotes)
    ensures UniqueQuoteCells(p.quotes) && ExtendedPositions(p) == ExpectedExtendedHoldingsWithQuotes()
  {
    var r := ExtendedPositions(p);
    HoldingsWithQuotes(p);
    AxesWithQuotes(p);
    ExtendedLastRowsWithQuotes(p);
    ExtendedHoldingIsRow(p, 0, 10);
    ExtendedHoldingIsRow(p, 1, 11);
    TwoRows(r, ExpectedExtendedHoldingsWithQuotes());
  }

  /** The fixture without a quote fetcher: the `invested` and `pl` columns
      and the extended `positions()` the tests expect. */
  lemma ExtendedScenarioWithoutQuotes(today: Day)
    ensures NewPortfolio(FixtureLedger(), None, today) == Success(Portfolio(FixtureLedger(), []))
    ensures ExtendedValuations(Portfolio(FixtureLedger(), [])) == ExpectedExtendedWithoutQuotes()
    ensures ExtendedPositions(Portfolio(FixtureLedger(), [])) == ExpectedExtendedHoldingsWithoutQuotes()
  {
    ScenarioWithoutQuotes(today);
    ExtendedValuationsWithoutQuotes(Portfolio(FixtureLedger(), []));
    ExtendedHoldingsWithoutQuotes(Portfolio(FixtureLedger(), []));
  }

  /** The fixture with the mock fetcher: the same for the mock tables. */
  lemma ExtendedScenarioWithQuotes(today: Day)
    ensures NewPortfolio(FixtureLedger(), Some(MockFetcher), today).Success?
    ensures var p := NewPortfolio(FixtureLedger(), Some(MockFetcher), today).value;
            UniqueQuoteCells(p.quotes) && ExtendedValuations(p) == ExpectedExtendedWithQuotes()
    ensures var p := NewPortfolio(FixtureLedger(), Some(MockFetcher), today).value;
            UniqueQuoteCells(p.quotes) && ExtendedPositions(p) == ExpectedExtendedHoldingsWithQuotes()
  {
    MockConstruction(today);
    var p := NewPortfolio(FixtureLedger(), Some(MockFetcher), today).value;
    ExtendedValuationsWithQuotes(p);
    ExtendedHoldingsWithQuotes(p);
  }
}
