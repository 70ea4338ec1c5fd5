/** The `invested` and `pl` columns. They are NOT computed by
    gainly/portfolio.py as written; the repository's tests expect them on
    every daily row and in `positions()`. They are modelled here as an
    extension on top of the reconstruction, with the rules the tests pin:
    `invested` is the running sum of price times signed quantity, snapshotted
    and forward-filled exactly like `position`; `pl` is `value - invested`,
    computed on rows that can be valued and forward-filled like `value`. */
module Extension {
  import opened Wrappers
  import opened Ledger
  import opened Fill
  import opened Quotes
  import opened Running
  import opened Grid
  import opened Portfolio

  /** A daily valuation with the two extra columns. */
  datatype ExtendedValuation = ExtendedValuation(date: Day, symbol: Symbol, price: Option<real>, position: Option<real>,
                                                 invested: Option<real>, close: Option<real>, value: Option<real>,
                                                 pl: Option<real>) {
    function Key(): Cell { Cell(date, symbol) }
    /** The row without the extra columns. */
    function Base(): DailyValuation { DailyValuation(date, symbol, price, position, close, value) }
  }

  /** A current holding with the two extra columns. */
  datatype ExtendedHolding = ExtendedHolding(symbol: Symbol, position: Option<real>, value: Option<real>,
                                             invested: Option<real>, pl: Option<real>)

  /** The `invested` column: the capital snapshots forward-filled over the grid. */
  function InvestedColumn(p: Portfolio): (r: seq<Option<real>>)
    ensures |r| == |TableCells(p)|
  {
    FilledOnGrid(Totals(SnapshotTable(p.txns, Capital)), TableDates(p), TableSymbols(p))
  }

  /** The profit or loss of a row before filling: its value less the capital
      invested, on rows that can be valued; absent otherwise. */
  function RawPl(row: DailyPosition, invested: Option<real>): Option<real> {
    if Valued(row) && invested.Some? then Some(RawValue(row).value - invested.value) else None
  }

  function RawPlColumn(vals: seq<DailyValuation>, invested: seq<Option<real>>): (r: seq<Option<real>>)
    requires |vals| == |invested|
    ensures |r| == |vals| && forall i :: 0 <= i < |vals| ==> r[i] == RawPl(vals[i].Position(), invested[i])
  {
    seq(|vals|, i requires 0 <= i < |vals| => RawPl(vals[i].Position(), invested[i]))
  }

  /** The two extra columns added to daily valuations: `invested` as given,
      `pl` computed per row and forward-filled per symbol. */
  function WithPl(vals: seq<DailyValuation>, invested: seq<Option<real>>): (rows: seq<ExtendedValuation>)
    requires |vals| == |invested|
    ensures |rows| == |vals|
    ensures forall i :: 0 <= i < |rows| ==> rows[i].Base() == vals[i] && rows[i].invested == invested[i]
  {
    var pl := FillForward(SymbolsOfRows(vals), RawPlColumn(vals, invested), map[]);
    seq(|vals|, i requires 0 <= i < |vals| && |pl| == |vals| =>
      var v := vals[i];
      ExtendedValuation(v.date, v.symbol, v.price, v.position, invested[i], v.close, v.value, pl[i]))
  }

  /** Daily valuations with `invested` and `pl`. */
  function ExtendedValuations(p: Portfolio): (rows: seq<ExtendedValuation>)
    requires UniqueQuoteCells(p.quotes)
    ensures |rows| == |DailyValuations(p)|
    ensures forall i :: 0 <= i < |rows| ==> rows[i].Base() == DailyValuations(p)[i]
  {
    WithPl(DailyValuations(p), InvestedColumn(p))
  }

  /** `invested` is the symbol's capital through the end of the cell's date:
      absent before its first trade, then the sum of price times signed
      quantity over its trades so far. */
  lemma InvestedOnGrid(p: Portfolio)
    ensures forall i :: 0 <= i < |TableCells(p)| ==>
              InvestedColumn(p)[i] == HoldingThrough(p.txns, TableCells(p)[i].symbol, TableCells(p)[i].date, Capital)
  {
    var snaps := SnapshotTable(p.txns, Capital);
    SnapshotTableMatchesLedger(p.txns, Capital);
    assert KnownOnTradeDays(p.txns, Totals(snaps), Capital);
    TableShape(p);
    FilledGridIsHolding(p.txns, Capital, Totals(snaps), TableDates(p), TableSymbols(p));
  }

  /** The same on the rows of the extended valuations. */
  lemma InvestedIsCapital(p: Portfolio)
    requires UniqueQuoteCells(p.quotes)
    ensures forall i :: 0 <= i < |ExtendedValuations(p)| ==>
              ExtendedValuations(p)[i].invested == HoldingThrough(p.txns, ExtendedValuations(p)[i].symbol, ExtendedValuations(p)[i].date, Capital)
  {
    InvestedOnGrid(p);
    var rows := ExtendedValuations(p);
    forall i | 0 <= i < |rows|
      ensures rows[i].Key() == TableCells(p)[i]
    {
      assert rows[i].Base() == DailyValuations(p)[i];
      assert DailyValuations(p)[i].Position() == DailyPositions(p)[i];
    }
  }

  /** `position` and `invested` are defined on exactly the same rows. */
  lemma InvestedWithPosition(p: Portfolio)
    requires UniqueQuoteCells(p.quotes)
    ensures forall i :: 0 <= i < |ExtendedValuations(p)| ==>
              (ExtendedValuations(p)[i].invested.Some? <==> ExtendedValuations(p)[i].position.Some?)
  {
    InvestedIsCapital(p);
    DailyPositionsHolding(p);
    var rows := ExtendedValuations(p);
    forall i | 0 <= i < |rows|
      ensures rows[i].position == DailyPositions(p)[i].position
    {
      assert rows[i].Base() == DailyValuations(p)[i];
      assert DailyValuations(p)[i].Position() == DailyPositions(p)[i];
    }
  }

  /** Profit and loss: on a row that can be valued, `pl` is `value` less
      `invested`; any other row carries the symbol's previous `pl`, or has
      none on the symbol's first row. */
  lemma WithPlValue(vals: seq<DailyValuation>, invested: seq<Option<real>>)
    requires |vals| == |invested|
    ensures forall i :: 0 <= i < |vals| && Valued(vals[i].Position()) && invested[i].Some? ==>
              WithPl(vals, invested)[i].pl == Some(RawValue(vals[i].Position()).value - invested[i].value)
    ensures forall i, j :: 0 <= j < i < |vals| && IsPreviousOf(vals, j, i) && !(Valued(vals[i].Position()) && invested[i].Some?) ==>
              WithPl(vals, invested)[i].pl == WithPl(vals, invested)[j].pl
    ensures forall i :: 0 <= i < |vals| && IsFirstOf(vals, i) && !(Valued(vals[i].Position()) && invested[i].Some?) ==>
              WithPl(vals, invested)[i].pl.None?
  {
    var rows := WithPl(vals, invested);
    var keys, raw := SymbolsOfRows(vals), RawPlColumn(vals, invested);
    var filled := FillForward(keys, raw, map[]);
    assert forall i :: 0 <= i < |rows| ==> rows[i].pl == filled[i];
    forall i, j | 0 <= j < i < |vals| && IsPreviousOf(vals, j, i) && !(Valued(vals[i].Position()) && invested[i].Some?)
      ensures rows[i].pl == rows[j].pl
    {
      FillCarries(keys, raw, map[], j, i);
    }
    forall i | 0 <= i < |vals| && IsFirstOf(vals, i) && !(Valued(vals[i].Position()) && invested[i].Some?)
      ensures rows[i].pl.None?
    {
      FillStarts(keys, raw, map[], i);
    }
  }

  lemma PlOfValuedRow(vals: seq<DailyValuation>, invested: seq<Option<real>>, i: nat, v: real)
    requires |vals| == |invested| && i < |vals| && Valued(vals[i].Position()) && invested[i].Some?
    requires RawValue(vals[i].Position()).value - invested[i].value == v
    ensures WithPl(vals, invested)[i].pl == Some(v)
  {
    WithPlValue(vals, invested);
  }

  lemma PlOfCarriedRow(vals: seq<DailyValuation>, invested: seq<Option<real>>, j: nat, i: nat)
    requires |vals| == |invested| && j < i < |vals| && IsPreviousOf(vals, j, i)
    requires !(Valued(vals[i].Position()) && invested[i].Some?)
    ensures WithPl(vals, invested)[i].pl == WithPl(vals, invested)[j].pl
  {
    WithPlValue(vals, invested);
  }

  lemma PlOfFirstRow(vals: seq<DailyValuation>, invested: seq<Option<real>>, i: nat)
    requires |vals| == |invested| && i < |vals| && IsFirstOf(vals, i)
    requires !(Valued(vals[i].Position()) && invested[i].Some?)
    ensures WithPl(vals, invested)[i].pl.None?
  {
    WithPlValue(vals, invested);
  }

  /** The pl identity on any valuation table where `invested` is present
      with `position` and valued rows carry their own value. */
  lemma WithPlIdentity(vals: seq<DailyValuation>, invested: seq<Option<real>>)
    requires |vals| == |invested|
    requires forall i :: 0 <= i < |vals| && vals[i].position.Some? ==> invested[i].Some?
    requires forall i :: 0 <= i < |vals| && Valued(vals[i].Position()) ==> vals[i].value == RawValue(vals[i].Position())
    ensures forall i :: 0 <= i < |vals| && Valued(vals[i].Position()) ==>
              && WithPl(vals, invested)[i].value.Some? && WithPl(vals, invested)[i].invested.Some?
              && WithPl(vals, invested)[i].pl == Some(WithPl(vals, invested)[i].value.value - WithPl(vals, invested)[i].invested.value)
  {
    WithPlValue(vals, invested);
    var rows := WithPl(vals, invested);
    forall i | 0 <= i < |vals| && Valued(vals[i].Position())
      ensures rows[i].value.Some? && rows[i].invested.Some?
      ensures rows[i].pl == Some(rows[i].value.value - rows[i].invested.value)
    {
      assert rows[i].Base() == vals[i];
      assert vals[i].Position().position == vals[i].position;
    }
  }

  /** The pl identity for valuations computed from daily positions. */
  lemma ValuedRowIdentity(pos: seq<DailyPosition>, invested: seq<Option<real>>, i: nat)
    requires |pos| == |invested| && i < |pos| && Valued(pos[i])
    requires forall k :: 0 <= k < |pos| && pos[k].position.Some? ==> invested[k].Some?
    ensures var row := WithPl(WithValues(pos), invested)[i];
            row.value.Some? && row.invested.Some? && row.pl == Some(row.value.value - row.invested.value)
  {
    var vals := WithValues(pos);
    WithValuesRaw(pos);
    assert forall k :: 0 <= k < |pos| ==> vals[k].Position() == pos[k];
    WithPlIdentity(vals, invested);
  }

  /** Wherever a position is held, the capital invested is known. */
  lemma InvestedWhereHeld(p: Portfolio)
    requires UniqueQuoteCells(p.quotes)
    ensures forall i :: 0 <= i < |DailyPositions(p)| && DailyPositions(p)[i].position.Some? ==> InvestedColumn(p)[i].Some?
  {
    InvestedOnGrid(p);
    DailyPositionsHolding(p);
  }

  /** The pl identity on the reconstructed tables: wherever a row is valued
      from its own trade price or close, `pl == value - invested`. */
  lemma PlIsValueLessInvested(p: Portfolio)
    requires UniqueQuoteCells(p.quotes)
    ensures forall i :: 0 <= i < |ExtendedValuations(p)| && Valued(ExtendedValuations(p)[i].Base().Position()) ==>
              && ExtendedValuations(p)[i].value.Some? && ExtendedValuations(p)[i].invested.Some?
              && ExtendedValuations(p)[i].pl.Some?
              && ExtendedValuations(p)[i].pl.value == ExtendedValuations(p)[i].value.value - ExtendedValuations(p)[i].invested.value
  {
    var pos := DailyPositions(p);
    InvestedWhereHeld(p);
    var rows := ExtendedValuations(p);
    assert rows == WithPl(WithValues(pos), InvestedColumn(p));
    forall i | 0 <= i < |rows| && Valued(rows[i].Base().Position())
      ensures rows[i].value.Some? && rows[i].invested.Some?
      ensures rows[i].pl.Some? && rows[i].pl.value == rows[i].value.value - rows[i].invested.value
    {
      assert rows[i].Base().Position() == pos[i];
      ValuedRowIdentity(pos, InvestedColumn(p), i);
    }
  }

  function InvestedOf(rows: seq<ExtendedValuation>): (r: seq<Option<real>>)
    ensures |r| == |rows| && forall i :: 0 <= i < |rows| ==> r[i] == rows[i].invested
  {
    seq(|rows|, i requires 0 <= i < |rows| => rows[i].invested)
  }

  function PlOf(rows: seq<ExtendedValuation>): (r: seq<Option<real>>)
    ensures |r| == |rows| && forall i :: 0 <= i < |rows| ==> r[i] == rows[i].pl
  {
    seq(|rows|, i requires 0 <= i < |rows| => rows[i].pl)
  }

  /** Both extra columns are forward-filled over the row symbols. */
  lemma ExtraColumnsAreFilled(p: Portfolio)
    requires UniqueQuoteCells(p.quotes)
    ensures SymbolsOfRows(DailyValuations(p)) == SymbolsOf(TableCells(p))
    ensures InvestedOf(ExtendedValuations(p))
            == FillForward(SymbolsOf(TableCells(p)), ColumnOn(TableCells(p), Totals(SnapshotTable(p.txns, Capital))), map[])
    ensures PlOf(ExtendedValuations(p))
            == FillForward(SymbolsOf(TableCells(p)), RawPlColumn(DailyValuations(p), InvestedColumn(p)), map[])
  {
    var vals := DailyValuations(p);
    forall k | 0 <= k < |vals|
      ensures SymbolsOfRows(vals)[k] == TableCells(p)[k].symbol
    {
      assert vals[k].Position() == DailyPositions(p)[k];
    }
  }

  /** `positions()` with the extra columns: the last non-missing `invested`
      and `pl` of each symbol. */
  function ExtendedPositions(p: Portfolio): (r: seq<ExtendedHolding>)
    requires UniqueQuoteCells(p.quotes)
    ensures |r| == |Positions(p)|
    ensures forall i :: 0 <= i < |r| ==>
              r[i].symbol == Positions(p)[i].symbol && r[i].position == Positions(p)[i].position && r[i].value == Positions(p)[i].value
  {
    var rows := ExtendedValuations(p);
    WithLastExtras(Positions(p), SymbolsOf(TableCells(p)), InvestedOf(rows), PlOf(rows))
  }

  /** Each holding with the last non-missing `invested` and `pl` of its symbol. */
  function WithLastExtras(base: seq<Holding>, keys: seq<Symbol>, invested: seq<Option<real>>, pl: seq<Option<real>>)
    : (r: seq<ExtendedHolding>)
    requires |keys| == |invested| == |pl|
    ensures |r| == |base|
    ensures forall i :: 0 <= i < |r| ==>
              r[i].symbol == base[i].symbol && r[i].position == base[i].position && r[i].value == base[i].value
    ensures forall i :: 0 <= i < |r| ==>
              r[i].invested == LastDefinedFor(keys, invested, base[i].symbol) && r[i].pl == LastDefinedFor(keys, pl, base[i].symbol)
  {
    seq(|base|, i requires 0 <= i < |base| =>
      ExtendedHolding(base[i].symbol, base[i].position, base[i].value,
                      LastDefinedFor(keys, invested, base[i].symbol), LastDefinedFor(keys, pl, base[i].symbol)))
  }

  /** One extended holding is its symbol's row on the latest date. */
  lemma ExtendedHoldingIsLatestRow(p: Portfolio, i: nat)
    requires UniqueQuoteCells(p.quotes) && i < |ExtendedPositions(p)|
    ensures |TableDates(p)| > 0
    ensures ExtendedPositions(p)[i].invested == HoldingThrough(p.txns, ExtendedPositions(p)[i].symbol, LatestDate(p), Capital)
    ensures exists k :: 0 <= k < |ExtendedValuations(p)| && ExtendedValuations(p)[k].Key() == Cell(LatestDate(p), ExtendedPositions(p)[i].symbol)
                     && ExtendedPositions(p)[i].invested == ExtendedValuations(p)[k].invested
                     && ExtendedPositions(p)[i].pl == ExtendedValuations(p)[k].pl
  {
    var vals, rows, r := DailyValuations(p), ExtendedValuations(p), ExtendedPositions(p);
    var keys := SymbolsOf(TableCells(p));
    ExtraColumnsAreFilled(p);
    var s := r[i].symbol;
    assert s == Positions(p)[i].symbol;
    LastRowOnLatestDate(p, s);
    var k := LastIndexBefore(keys, s, |vals|).value;
    LastOfFilled(keys, ColumnOn(TableCells(p), Totals(SnapshotTable(p.txns, Capital))), map[], s);
    LastOfFilled(keys, RawPlColumn(vals, InvestedColumn(p)), map[], s);
    assert r[i].invested == rows[k].invested;
    assert r[i].pl == rows[k].pl;
    assert rows[k].Base() == vals[k] && vals[k].Position() == DailyPositions(p)[k];
    assert rows[k].Key() == Cell(LatestDate(p), s);
    InvestedIsCapital(p);
  }

  /** An extended holding is its symbol's extended row on the latest date. */
  lemma ExtendedHoldingIsRow(p: Portfolio, i: nat, k: nat)
    requires UniqueQuoteCells(p.quotes) && i < |ExtendedPositions(p)| && k < |ExtendedValuations(p)|
    requires |TableDates(p)| > 0 && ExtendedValuations(p)[k].Key() == Cell(LatestDate(p), ExtendedPositions(p)[i].symbol)
    ensures ExtendedPositions(p)[i].invested == ExtendedValuations(p)[k].invested
    ensures ExtendedPositions(p)[i].pl == ExtendedValuations(p)[k].pl
  {
    var vals, rows, r := DailyValuations(p), ExtendedValuations(p), ExtendedPositions(p);
    ExtendedHoldingIsLatestRow(p, i);
    var m :| 0 <= m < |rows| && rows[m].Key() == Cell(LatestDate(p), r[i].symbol)
             && r[i].invested == rows[m].invested && r[i].pl == rows[m].pl;
    assert rows[m].Base() == vals[m] && rows[k].Base() == vals[k];
    ValuationKeysDistinct(p, m, k);
  }
}
