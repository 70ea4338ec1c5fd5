/** Stage two and three of the reconstruction: the full date x symbol grid,
    in the row order of pandas' outer merge, and the proof that forward
    filling a snapshot column over it yields each symbol's holding. */
module Grid {
  import opened Wrappers
  import opened Ordering
  import opened Ledger
  import opened Fill

  /** The row order of the reconstructed tables: by date, then by symbol. */
  predicate CellLess(a: Cell, b: Cell) {
    a.date < b.date || (a.date == b.date && StringLess(a.symbol, b.symbol))
  }

  /** One date's rows: the date paired with every symbol, in symbol order. */
  function Block(d: Day, syms: seq<Symbol>): (r: seq<Cell>)
    ensures |r| == |syms|
    ensures forall j :: 0 <= j < |syms| ==> r[j] == Cell(d, syms[j])
  {
    seq(|syms|, j requires 0 <= j < |syms| => Cell(d, syms[j]))
  }

  /** The Cartesian product of `dates` and `syms`, date-major. */
  function GridCells(dates: seq<Day>, syms: seq<Symbol>): (cells: seq<Cell>)
    ensures forall c :: c in cells <==> c.date in dates && c.symbol in syms
  {
    if |dates| == 0 then []
    else
      var init, d := dates[..|dates| - 1], dates[|dates| - 1];
      assert forall x :: x in dates <==> x in init || x == d;
      GridCells(init, syms) + Block(d, syms)
  }

  lemma {:induction false} GridLength(dates: seq<Day>, syms: seq<Symbol>)
    ensures |GridCells(dates, syms)| == |dates| * |syms|
  {
    if |dates| > 0 {
      var n := |dates|;
      GridLength(dates[..n - 1], syms);
      assert |GridCells(dates, syms)| == (n - 1) * |syms| + |syms|;
    }
  }

  lemma RowBeforeBlock(i: nat, j: nat, m: nat, k: nat)
    requires i < m && j < k
    ensures 0 <= i * k && i * k + j < m * k
  {
    assert i * k + j < i * k + k == (i + 1) * k;
    assert (i + 1) * k <= m * k;
  }

  /** The grid is date-major: row `i * |syms| + j` pairs the `i`-th date with the `j`-th symbol. */
  lemma {:induction false} GridCellAt(dates: seq<Day>, syms: seq<Symbol>, i: nat, j: nat)
    requires i < |dates| && j < |syms|
    ensures |GridCells(dates, syms)| == |dates| * |syms|
    ensures i * |syms| + j < |GridCells(dates, syms)|
    ensures GridCells(dates, syms)[i * |syms| + j] == Cell(dates[i], syms[j])
  {
    var n, k := |dates|, |syms|;
    GridLength(dates, syms);
    RowBeforeBlock(i, j, n, k);
    if i < n - 1 {
      var init, x := dates[..n - 1], i * k + j;
      GridCellAt(init, syms, i, j);
      assert x < |GridCells(init, syms)|;
      GridCellInFront(dates, syms, x);
    } else {
      GridCellInBlock(dates, syms, j);
    }
  }

  lemma GridCellInFront(dates: seq<Day>, syms: seq<Symbol>, x: nat)
    requires |dates| > 0 && x < |GridCells(dates[..|dates| - 1], syms)|
    ensures x < |GridCells(dates, syms)| && GridCells(dates, syms)[x] == GridCells(dates[..|dates| - 1], syms)[x]
  {
  }

  lemma GridCellInBlock(dates: seq<Day>, syms: seq<Symbol>, j: nat)
    requires |dates| > 0 && j < |syms|
    ensures (|dates| - 1) * |syms| + j < |GridCells(dates, syms)|
    ensures GridCells(dates, syms)[(|dates| - 1) * |syms| + j] == Cell(dates[|dates| - 1], syms[j])
  {
    GridLength(dates[..|dates| - 1], syms);
    assert GridCells(dates, syms) == GridCells(dates[..|dates| - 1], syms) + Block(dates[|dates| - 1], syms);
  }

  /** With sorted dates and symbols, the grid is sorted by (date, symbol): no
      cell appears twice. */
  lemma {:induction false} GridSorted(dates: seq<Day>, syms: seq<Symbol>)
    requires StrictlySorted(dates, IntLess) && StrictlySorted(syms, StringLess)
    ensures StrictlySorted(GridCells(dates, syms), CellLess)
  {
    if |dates| > 0 {
      var init, d := dates[..|dates| - 1], dates[|dates| - 1];
      GridSorted(init, syms);
      var front, block := GridCells(init, syms), Block(d, syms);
      assert forall x :: x in init ==> x < d;
      assert forall i :: 0 <= i < |front| ==> front[i] in front && front[i].date < d;
      assert GridCells(dates, syms) == front + block;
    }
  }

  /** The symbol column of a table laid out on `cells`. */
  function SymbolsOf(cells: seq<Cell>): (r: seq<Symbol>)
    ensures |r| == |cells| && forall i :: 0 <= i < |cells| ==> r[i] == cells[i].symbol
  {
    seq(|cells|, i requires 0 <= i < |cells| => cells[i].symbol)
  }

  /** A column laid out on `cells`, present exactly where `known` has a value. */
  function ColumnOn(cells: seq<Cell>, known: map<Cell, real>): (r: seq<Option<real>>)
    ensures |r| == |cells|
    ensures forall i :: 0 <= i < |cells| ==> r[i] == (if cells[i] in known then Some(known[cells[i]]) else None)
  {
    seq(|cells|, i requires 0 <= i < |cells| => if cells[i] in known then Some(known[cells[i]]) else None)
  }

  /** `known` holds, for each cell with trades that day, the symbol's holding at the end of it. */
  ghost predicate KnownOnTradeDays(ledger: seq<Transaction>, known: map<Cell, real>, m: Measure) {
    && (forall c :: c in known <==> TradedOn(ledger, c))
    && (forall c :: c in known ==> Some(known[c]) == HoldingThrough(ledger, c.symbol, c.date, m))
  }

  /** Every trade day up to the last of `dates` is one of `dates`. */
  ghost predicate CoversTradeDays(ledger: seq<Transaction>, dates: seq<Day>) {
    |dates| > 0 ==> forall i :: 0 <= i < |ledger| && ledger[i].tradeDate.day <= dates[|dates| - 1] ==> ledger[i].tradeDate.day in dates
  }

  /** Before the rows of date `d`, the scan knows each symbol's holding at the end of the previous day. */
  lemma CarryBeforeDate(ledger: seq<Transaction>, m: Measure, dates: seq<Day>, carried: map<Symbol, real>, s: Symbol)
    requires StrictlySorted(dates, IntLess) && |dates| > 0 && CoversTradeDays(ledger, dates)
    requires |dates| == 1 ==> LastKnown(carried, s) == None
    requires |dates| > 1 ==> LastKnown(carried, s) == HoldingThrough(ledger, s, dates[|dates| - 2], m)
    ensures LastKnown(carried, s) == HoldingThrough(ledger, s, dates[|dates| - 1] - 1, m)
  {
    var n := |dates|;
    var d := dates[n - 1];
    if n == 1 {
      forall i | 0 <= i < |ledger| && ledger[i].symbol == s
        ensures ledger[i].tradeDate.day > d - 1
      {
        var t := ledger[i].tradeDate.day;
        assert t <= d ==> t in dates;
        assert dates == [d];
      }
    } else {
      var prev := dates[n - 2];
      assert IntLess(prev, d);
      forall i | 0 <= i < |ledger| && ledger[i].symbol == s
        ensures !(prev < ledger[i].tradeDate.day <= d - 1)
      {
        var t := ledger[i].tradeDate.day;
        assert t <= d ==> t <= prev || t == d by {
          if t <= d {
            assert t in dates;
            var k :| 0 <= k < n && dates[k] == t;
            if k < n - 2 {
              assert IntLess(dates[k], prev);
            }
          }
        }
      }
      HoldingSteady(ledger, s, prev, d - 1, m);
    }
  }

  /** The rows of date `d`: each takes its snapshot value, or else the symbol's
      holding at the end of the previous day, which is its holding on `d`. */
  lemma BlockFill(ledger: seq<Transaction>, m: Measure, known: map<Cell, real>, dates: seq<Day>,
                  syms: seq<Symbol>, carried: map<Symbol, real>)
    requires StrictlySorted(dates, IntLess) && |dates| > 0 && Distinct(syms)
    requires KnownOnTradeDays(ledger, known, m) && CoversTradeDays(ledger, dates)
    requires |dates| == 1 ==> forall s :: s in syms ==> LastKnown(carried, s) == None
    requires |dates| > 1 ==> forall s :: s in syms ==> LastKnown(carried, s) == HoldingThrough(ledger, s, dates[|dates| - 2], m)
    ensures forall j :: 0 <= j < |syms| ==>
              FillForward(syms, ColumnOn(Block(dates[|dates| - 1], syms), known), carried)[j]
              == HoldingThrough(ledger, syms[j], dates[|dates| - 1], m)
    ensures forall s :: s in syms ==>
              LastKnown(Carry(syms, ColumnOn(Block(dates[|dates| - 1], syms), known), carried), s)
              == HoldingThrough(ledger, s, dates[|dates| - 1], m)
  {
    var d := dates[|dates| - 1];
    var vals := ColumnOn(Block(d, syms), known);
    FillDistinctKeys(syms, vals, carried);
    forall j | 0 <= j < |syms|
      ensures FillForward(syms, vals, carried)[j] == HoldingThrough(ledger, syms[j], d, m)
    {
      var s := syms[j];
      CarryBeforeDate(ledger, m, dates, carried, s);
      if Cell(d, s) !in known {
        forall i | 0 <= i < |ledger| && ledger[i].symbol == s
          ensures !(d - 1 < ledger[i].tradeDate.day <= d)
        {
          assert TradeCell(ledger[i]) != Cell(d, s);
        }
        HoldingSteady(ledger, s, d - 1, d, m);
      }
    }
  }

  /** The forward-filled column over the whole grid, and the values the scan carries out of it. */
  function FilledOnGrid(known: map<Cell, real>, dates: seq<Day>, syms: seq<Symbol>): seq<Option<real>> {
    FillForward(SymbolsOf(GridCells(dates, syms)), ColumnOn(GridCells(dates, syms), known), map[])
  }

  function CarriedOutOfGrid(known: map<Cell, real>, dates: seq<Day>, syms: seq<Symbol>): map<Symbol, real> {
    Carry(SymbolsOf(GridCells(dates, syms)), ColumnOn(GridCells(dates, syms), known), map[])
  }

  lemma SymbolsOfAppend(a: seq<Cell>, b: seq<Cell>)
    ensures SymbolsOf(a + b) == SymbolsOf(a) + SymbolsOf(b)
  {
  }

  lemma ColumnOnAppend(a: seq<Cell>, b: seq<Cell>, known: map<Cell, real>)
    ensures ColumnOn(a + b, known) == ColumnOn(a, known) + ColumnOn(b, known)
  {
  }

  /** Filling the grid is filling all dates but the last, then the last date's rows. */
  lemma FilledOnGridSplit(known: map<Cell, real>, dates: seq<Day>, syms: seq<Symbol>)
    requires |dates| > 0
    ensures var init, d := dates[..|dates| - 1], dates[|dates| - 1];
            && GridCells(dates, syms) == GridCells(init, syms) + Block(d, syms)
            && FilledOnGrid(known, dates, syms) == FilledOnGrid(known, init, syms)
                 + FillForward(syms, ColumnOn(Block(d, syms), known), CarriedOutOfGrid(known, init, syms))
            && CarriedOutOfGrid(known, dates, syms)
                 == Carry(syms, ColumnOn(Block(d, syms), known), CarriedOutOfGrid(known, init, syms))
  {
    var init, d := dates[..|dates| - 1], dates[|dates| - 1];
    var front, block := GridCells(init, syms), Block(d, syms);
    var cells := GridCells(dates, syms);
    assert cells == front + block;
    var keys1, vals1 := SymbolsOf(front), ColumnOn(front, known);
    var vals2 := ColumnOn(block, known);
    SymbolsOfAppend(front, block);
    assert SymbolsOf(block) == syms;
    ColumnOnAppend(front, block, known);
    FillForwardAppend(keys1, vals1, syms, vals2, map[]);
    CarryAppend(keys1, vals1, syms, vals2, map[]);
  }

  /** Forward filling a snapshot column over the grid gives, on every row, the
      symbol's holding at the end of the row's date. */
  lemma {:induction false} FilledGridIsHolding(ledger: seq<Transaction>, m: Measure, known: map<Cell, real>,
                                               dates: seq<Day>, syms: seq<Symbol>)
    requires StrictlySorted(dates, IntLess) && Distinct(syms)
    requires KnownOnTradeDays(ledger, known, m) && CoversTradeDays(ledger, dates)
    ensures |FilledOnGrid(known, dates, syms)| == |GridCells(dates, syms)|
    ensures forall i :: 0 <= i < |GridCells(dates, syms)| ==>
              FilledOnGrid(known, dates, syms)[i]
              == HoldingThrough(ledger, GridCells(dates, syms)[i].symbol, GridCells(dates, syms)[i].date, m)
    ensures |dates| > 0 ==> forall s :: s in syms ==>
              LastKnown(CarriedOutOfGrid(known, dates, syms), s) == HoldingThrough(ledger, s, dates[|dates| - 1], m)
  {
    if |dates| > 0 {
      var n := |dates|;
      var init, d := dates[..n - 1], dates[n - 1];
      CoversPrefix(ledger, dates);
      FilledGridIsHolding(ledger, m, known, init, syms);
      FilledOnGridSplit(known, dates, syms);
      var carried := CarriedOutOfGrid(known, init, syms);
      BlockFill(ledger, m, known, dates, syms, carried);
      JoinFilled(ledger, m, GridCells(dates, syms), GridCells(init, syms), d, syms, FilledOnGrid(known, dates, syms),
                 FilledOnGrid(known, init, syms), FillForward(syms, ColumnOn(Block(d, syms), known), carried));
    }
  }

  lemma JoinFilled(ledger: seq<Transaction>, m: Measure, cells: seq<Cell>, front: seq<Cell>, d: Day, syms: seq<Symbol>,
                   filled: seq<Option<real>>, filled1: seq<Option<real>>, filled2: seq<Option<real>>)
    requires cells == front + Block(d, syms) && filled == filled1 + filled2
    requires |filled1| == |front| && |filled2| == |syms|
    requires forall i :: 0 <= i < |front| ==> filled1[i] == HoldingThrough(ledger, front[i].symbol, front[i].date, m)
    requires forall j :: 0 <= j < |syms| ==> filled2[j] == HoldingThrough(ledger, syms[j], d, m)
    ensures forall i :: 0 <= i < |cells| ==> filled[i] == HoldingThrough(ledger, cells[i].symbol, cells[i].date, m)
  {
    forall i | 0 <= i < |cells|
      ensures filled[i] == HoldingThrough(ledger, cells[i].symbol, cells[i].date, m)
    {
      if i >= |front| {
        var j := i - |front|;
        assert cells[i] == Cell(d, syms[j]);
        assert filled[i] == filled2[j];
      } else {
        assert cells[i] == front[i];
        assert filled[i] == filled1[i];
      }
    }
  }

  lemma CoversPrefix(ledger: seq<Transaction>, dates: seq<Day>)
    requires StrictlySorted(dates, IntLess) && |dates| > 0 && CoversTradeDays(ledger, dates)
    ensures CoversTradeDays(ledger, dates[..|dates| - 1])
  {
    var n := |dates|;
    if n > 1 {
      assert IntLess(dates[n - 2], dates[n - 1]);
      assert forall x :: x in dates ==> x in dates[..n - 1] || x == dates[n - 1];
    }
  }

  /** In a table sorted by (date, symbol), a symbol's last row is on the
      latest date whenever the symbol has a row there. */
  lemma LastRowOfSymbol(cells: seq<Cell>, s: Symbol, d: Day)
    requires StrictlySorted(cells, CellLess)
    requires Cell(d, s) in cells
    requires forall i :: 0 <= i < |cells| ==> cells[i].date <= d
    ensures LastIndexBefore(SymbolsOf(cells), s, |cells|).Some?
    ensures cells[LastIndexBefore(SymbolsOf(cells), s, |cells|).value] == Cell(d, s)
  {
    var keys := SymbolsOf(cells);
    var m :| 0 <= m < |cells| && cells[m] == Cell(d, s);
    assert keys[m] == s;
    var k := LastIndexBefore(keys, s, |cells|).value;
    StringLessIrreflexive(s);
    assert m < k ==> CellLess(cells[m], cells[k]);
  }
}
