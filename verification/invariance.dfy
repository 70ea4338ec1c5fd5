/** What the reconstruction does not depend on: the order of the ledger's
    rows and of the quote table, and, without a quote source, the current date. */
module Invariance {
  import opened Wrappers
  import opened Ordering
  import opened Ledger
  import opened Quotes
  import opened Running
  import opened Portfolio

  /** Two portfolios list the same transactions, possibly in another order,
      and the same quotes. */
  ghost predicate SameContents(p1: Portfolio, p2: Portfolio) {
    && multiset(p1.txns) == multiset(p2.txns)
    && (forall q :: q in p1.quotes <==> q in p2.quotes)
  }

  /** Reordering changes neither the table's dates nor its symbols. */
  lemma {:induction false} SameTableAxes(p1: Portfolio, p2: Portfolio)
    requires SameContents(p1, p2)
    ensures TableDates(p1) == TableDates(p2)
    ensures TableSymbols(p1) == TableSymbols(p2)
  {
    forall t ensures t in p1.txns <==> t in p2.txns {
      assert t in p1.txns <==> t in multiset(p1.txns);
      assert t in p2.txns <==> t in multiset(p2.txns);
    }
    forall d ensures d in TableDates(p1) <==> d in TableDates(p2) {
      if IsTableDate(p1, d) { TableDateIn(p1, p2, d); }
      if IsTableDate(p2, d) { TableDateIn(p2, p1, d); }
    }
    forall s ensures s in TableSymbols(p1) <==> s in TableSymbols(p2) {
      if IsTableSymbol(p1, s) { TableSymbolIn(p1, p2, s); }
      if IsTableSymbol(p2, s) { TableSymbolIn(p2, p1, s); }
    }
    IntLessIsStrictTotalOrder();
    StringLessIsStrictTotalOrder();
    SortedIsCanonical(TableDates(p1), TableDates(p2), IntLess);
    SortedIsCanonical(TableSymbols(p1), TableSymbols(p2), StringLess);
  }

  lemma TableDateIn(p1: Portfolio, p2: Portfolio, d: Day)
    requires forall t :: t in p1.txns ==> t in p2.txns
    requires forall q :: q in p1.quotes ==> q in p2.quotes
    requires IsTableDate(p1, d)
    ensures IsTableDate(p2, d)
  {
    if exists i :: 0 <= i < |p1.txns| && p1.txns[i].tradeDate.day == d {
      var i :| 0 <= i < |p1.txns| && p1.txns[i].tradeDate.day == d;
      assert p1.txns[i] in p2.txns;
    } else {
      var i :| 0 <= i < |p1.quotes| && p1.quotes[i].date == d;
      assert p1.quotes[i] in p2.quotes;
    }
  }

  lemma TableSymbolIn(p1: Portfolio, p2: Portfolio, s: Symbol)
    requires forall t :: t in p1.txns ==> t in p2.txns
    requires forall q :: q in p1.quotes ==> q in p2.quotes
    requires IsTableSymbol(p1, s)
    ensures IsTableSymbol(p2, s)
  {
    if exists i :: 0 <= i < |p1.txns| && p1.txns[i].symbol == s {
      var i :| 0 <= i < |p1.txns| && p1.txns[i].symbol == s;
      assert p1.txns[i] in p2.txns;
    } else {
      var i :| 0 <= i < |p1.quotes| && p1.quotes[i].symbol == s;
      assert p1.quotes[i] in p2.quotes;
    }
  }

  lemma QuotedIn(q1: seq<Quote>, q2: seq<Quote>, c: Cell)
    requires forall q :: q in q1 ==> q in q2
    requires exists i :: 0 <= i < |q1| && QuoteCell(q1[i]) == c
    ensures exists j :: 0 <= j < |q2| && QuoteCell(q2[j]) == c
  {
    var i :| 0 <= i < |q1| && QuoteCell(q1[i]) == c;
    assert q1[i] in q2;
  }

  /** With unique quote cells, the close on a cell depends only on which quotes there are. */
  lemma SameClose(q1: seq<Quote>, q2: seq<Quote>, c: Cell)
    requires UniqueQuoteCells(q1) && UniqueQuoteCells(q2)
    requires forall q :: q in q1 <==> q in q2
    ensures CloseOn(q1, c) == CloseOn(q2, c)
  {
    if exists j :: 0 <= j < |q2| && QuoteCell(q2[j]) == c {
      QuotedIn(q2, q1, c);
    }
    if exists i :: 0 <= i < |q1| && QuoteCell(q1[i]) == c {
      var i :| 0 <= i < |q1| && QuoteCell(q1[i]) == c;
      CloseOnUniqueQuote(q1, i);
      assert q1[i] in q2;
      var j :| 0 <= j < |q2| && q2[j] == q1[i];
      CloseOnUniqueQuote(q2, j);
    }
  }

  /** One row of `daily_positions()` is the same for both orderings. */
  lemma SameRow(p1: Portfolio, p2: Portfolio, i: nat)
    requires SameContents(p1, p2) && DistinctTimestamps(p1.txns)
    requires UniqueQuoteCells(p1.quotes) && UniqueQuoteCells(p2.quotes)
    requires TableCells(p1) == TableCells(p2)
    requires i < |DailyPositions(p1)|
    ensures i < |DailyPositions(p2)| && DailyPositions(p1)[i] == DailyPositions(p2)[i]
  {
    var r1, r2 := DailyPositions(p1), DailyPositions(p2);
    var c := r1[i].Key();
    assert r2[i].Key() == c;
    DailyPositionsHolding(p1);
    DailyPositionsHolding(p2);
    HoldingThroughPermutation(p1.txns, p2.txns, c.symbol, c.date, Units);
    DailyPositionsPrice(p1);
    DailyPositionsPrice(p2);
    assert TradedOn(p1.txns, c) ==> TradedOn(p2.txns, c) by {
      if TradedOn(p1.txns, c) {
        var k :| 0 <= k < |p1.txns| && TradeCell(p1.txns[k]) == c;
        assert p1.txns[k] in multiset(p2.txns);
      }
    }
    assert TradedOn(p2.txns, c) ==> TradedOn(p1.txns, c) by {
      if TradedOn(p2.txns, c) {
        var k :| 0 <= k < |p2.txns| && TradeCell(p2.txns[k]) == c;
        assert p2.txns[k] in multiset(p1.txns);
      }
    }
    if r1[i].price.Some? {
      LatestPriceIsUnique(p1.txns, p2.txns, c, r1[i].price.value, r2[i].price.value);
    }
    SameClose(p1.quotes, p2.quotes, c);
    assert r1[i].close == CloseOn(p1.quotes, c);
    assert r2[i].close == CloseOn(p2.quotes, c);
  }

  /** Order independence: listing the same transactions in any order, and the
      same quotes in any order, yields the same daily positions, the same
      daily valuations and the same current positions, provided no two trades
      in one symbol share a timestamp. */
  lemma OrderIndependence(p1: Portfolio, p2: Portfolio)
    requires SameContents(p1, p2) && DistinctTimestamps(p1.txns)
    requires UniqueQuoteCells(p1.quotes) && UniqueQuoteCells(p2.quotes)
    ensures DailyPositions(p1) == DailyPositions(p2)
    ensures DailyValuations(p1) == DailyValuations(p2)
    ensures Positions(p1) == Positions(p2)
  {
    SameTableAxes(p1, p2);
    var r1, r2 := DailyPositions(p1), DailyPositions(p2);
    forall i | 0 <= i < |r1|
      ensures r1[i] == r2[i]
    {
      SameRow(p1, p2, i);
    }
  }

  /** Without a quote fetcher the portfolio has no quotes: the null fetcher is
      the default, and the current date then makes no difference. */
  lemma DefaultFetcher(txns: seq<Transaction>, today1: Day, today2: Day)
    requires |txns| > 0
    ensures NewPortfolio(txns, None, today1) == Success(Portfolio(txns, []))
    ensures NewPortfolio(txns, Some(NoQuotes), today2) == NewPortfolio(txns, None, today1)
  {
    var syms := UniqueInOrder(SymbolsOfLedger(txns));
    GatherNothing(syms, FirstTradeDay(txns), QuoteRangeEnd(txns, today1));
    GatherNothing(syms, FirstTradeDay(txns), QuoteRangeEnd(txns, today2));
  }

  /** A well-behaved fetcher yields a quote table with one quote per cell at
      most, which is what the queries require. */
  lemma ConstructedQuotesUnique(txns: seq<Transaction>, source: Option<QuoteSource>, today: Day)
    requires |txns| > 0 && ServesOwnSymbol(SourceOrDefault(source))
    ensures UniqueQuoteCells(NewPortfolio(txns, source, today).value.quotes)
  {
    GatheredQuotesUnique(UniqueInOrder(SymbolsOfLedger(txns)), SourceOrDefault(source), FirstTradeDay(txns), QuoteRangeEnd(txns, today));
  }

  lemma SameTradeDays(a: seq<Transaction>, b: seq<Transaction>)
    requires |a| > 0 && multiset(a) == multiset(b)
    ensures |b| > 0
    ensures FirstTradeDay(a) == FirstTradeDay(b) && LastTradeDay(a) == LastTradeDay(b)
  {
    assert a[0] in multiset(b);
    var i1 :| 0 <= i1 < |a| && a[i1].tradeDate.day == FirstTradeDay(a);
    var j1 :| 0 <= j1 < |b| && b[j1].tradeDate.day == FirstTradeDay(b);
    var i2 :| 0 <= i2 < |a| && a[i2].tradeDate.day == LastTradeDay(a);
    var j2 :| 0 <= j2 < |b| && b[j2].tradeDate.day == LastTradeDay(b);
    assert a[i1] in multiset(b) && b[j1] in multiset(a) && a[i2] in multiset(b) && b[j2] in multiset(a);
  }

  lemma RequestedBy(a: seq<Transaction>, b: seq<Transaction>, source: QuoteSource, from: Day, to: Day, q: Quote)
    requires multiset(a) == multiset(b)
    requires exists i :: 0 <= i < |a| && q in source(a[i].symbol, from, to)
    ensures exists j :: 0 <= j < |b| && q in source(b[j].symbol, from, to)
  {
    var i :| 0 <= i < |a| && q in source(a[i].symbol, from, to);
    assert a[i] in multiset(b);
    var j :| 0 <= j < |b| && b[j] == a[i];
  }

  /** Reordering the ledger before construction changes nothing downstream. */
  lemma ConstructionOrderIndependence(a: seq<Transaction>, b: seq<Transaction>, source: Option<QuoteSource>, today: Day)
    requires |a| > 0 && multiset(a) == multiset(b) && DistinctTimestamps(a)
    requires ServesOwnSymbol(SourceOrDefault(source))
    ensures NewPortfolio(a, source, today).Success? && NewPortfolio(b, source, today).Success?
    ensures UniqueQuoteCells(NewPortfolio(a, source, today).value.quotes)
    ensures UniqueQuoteCells(NewPortfolio(b, source, today).value.quotes)
    ensures DailyPositions(NewPortfolio(a, source, today).value) == DailyPositions(NewPortfolio(b, source, today).value)
    ensures DailyValuations(NewPortfolio(a, source, today).value) == DailyValuations(NewPortfolio(b, source, today).value)
    ensures Positions(NewPortfolio(a, source, today).value) == Positions(NewPortfolio(b, source, today).value)
  {
    SameTradeDays(a, b);
    ConstructedQuotesUnique(a, source, today);
    ConstructedQuotesUnique(b, source, today);
    var pa, pb := NewPortfolio(a, source, today).value, NewPortfolio(b, source, today).value;
    var src, from, to := SourceOrDefault(source), FirstTradeDay(a), QuoteRangeEnd(a, today);
    assert QuoteRangeEnd(b, today) == to;
    forall q ensures q in pa.quotes <==> q in pb.quotes {
      if exists i :: 0 <= i < |a| && q in src(a[i].symbol, from, to) {
        RequestedBy(a, b, src, from, to, q);
      }
      if exists j :: 0 <= j < |b| && q in src(b[j].symbol, from, to) {
        RequestedBy(b, a, src, from, to, q);
      }
    }
    OrderIndependence(pa, pb);
  }
}
