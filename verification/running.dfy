/** Stage one of the reconstruction: the ledger sorted by trade time, the
    per-symbol running totals, and the end-of-day snapshot of each
    (day, symbol) that has trades. */
module Running {
  import opened Wrappers
  import opened Ledger

  predicate SortedByTime(rows: seq<Transaction>) {
    forall i, j :: 0 <= i < j < |rows| ==> NotAfter(rows[i].tradeDate, rows[j].tradeDate)
  }

  /** Places `t` after every row that is not later than it, so that rows with
      equal timestamps keep their ledger order (`InsertByTimeIsStable`). */
  function InsertByTime(rows: seq<Transaction>, t: Transaction): (r: seq<Transaction>)
    requires SortedByTime(rows)
    ensures SortedByTime(r)
    ensures forall x :: x in r <==> x in rows || x == t
    ensures multiset(r) == multiset(rows) + multiset{t}
  {
    if |rows| == 0 then [t]
    else
      var init, last := rows[..|rows| - 1], rows[|rows| - 1];
      assert rows == init + [last];
      if NotAfter(last.tradeDate, t.tradeDate) then rows + [t]
      else
        var front := InsertByTime(init, t);
        assert forall x :: x in init ==> NotAfter(x.tradeDate, last.tradeDate);
        assert forall i :: 0 <= i < |front| ==> front[i] in front;
        front + [last]
  }

  /** Where `InsertByTime` puts `t`: after the last row not later than it. */
  function InsertionPoint(rows: seq<Transaction>, t: Transaction): (k: nat)
    ensures k <= |rows|
  {
    if |rows| == 0 then 0
    else if NotAfter(rows[|rows| - 1].tradeDate, t.tradeDate) then |rows|
    else InsertionPoint(rows[..|rows| - 1], t)
  }

  /** The insertion is stable: the old rows keep their order, with `t` at the
      insertion point. */
  lemma {:induction false} InsertByTimeIsStable(rows: seq<Transaction>, t: Transaction)
    requires SortedByTime(rows)
    ensures InsertByTime(rows, t) == rows[..InsertionPoint(rows, t)] + [t] + rows[InsertionPoint(rows, t)..]
  {
    if |rows| == 0 {
      assert InsertByTime(rows, t) == [t];
    } else {
      var init, last := rows[..|rows| - 1], rows[|rows| - 1];
      assert rows == init + [last];
      if NotAfter(last.tradeDate, t.tradeDate) {
        assert InsertionPoint(rows, t) == |rows|;
        assert InsertByTime(rows, t) == rows + [t];
      } else {
        var k := InsertionPoint(init, t);
        assert k == InsertionPoint(rows, t);
        assert InsertByTime(rows, t) == InsertByTime(init, t) + [last];
        InsertByTimeIsStable(init, t);
        assert rows[..k] == init[..k] && rows[k..] == init[k..] + [last];
      }
    }
  }

  /** The insertion point separates the rows not later than `t` from those later. */
  lemma {:induction false} InsertionPointSplits(rows: seq<Transaction>, t: Transaction)
    requires SortedByTime(rows)
    ensures forall j :: 0 <= j < InsertionPoint(rows, t) ==> NotAfter(rows[j].tradeDate, t.tradeDate)
    ensures forall j :: InsertionPoint(rows, t) <= j < |rows| ==> !NotAfter(rows[j].tradeDate, t.tradeDate)
  {
    if |rows| > 0 {
      var init, last := rows[..|rows| - 1], rows[|rows| - 1];
      if NotAfter(last.tradeDate, t.tradeDate) {
        forall j | 0 <= j < |rows| ensures NotAfter(rows[j].tradeDate, t.tradeDate) {
          if j < |rows| - 1 {
            assert NotAfter(rows[j].tradeDate, last.tradeDate);
          }
        }
      } else {
        InsertionPointSplits(init, t);
        forall j | 0 <= j < |init| ensures rows[j] == init[j] { }
      }
    }
  }

  /** The ledger sorted by `trade_date`, ascending (the `sort_index` of the source). */
  function SortByTradeDate(txns: seq<Transaction>): (r: seq<Transaction>)
    ensures SortedByTime(r)
    ensures multiset(r) == multiset(txns)
  {
    if |txns| == 0 then []
    else
      assert txns == txns[..|txns| - 1] + [txns[|txns| - 1]];
      InsertByTime(SortByTradeDate(txns[..|txns| - 1]), txns[|txns| - 1])
  }

  /** A ledger row together with its symbol's running total up to and including it. */
  datatype Entry = Entry(txn: Transaction, total: real)

  function TotalOf(totals: map<Symbol, real>, s: Symbol): real {
    if s in totals then totals[s] else 0.0
  }

  /** The grouped cumulative sum: each row gets its symbol's total so far,
      continuing from `totals` (empty at the start of the ledger). */
  function RunningTotals(rows: seq<Transaction>, m: Measure, totals: map<Symbol, real>): (r: seq<Entry>)
    ensures |r| == |rows|
    ensures forall i :: 0 <= i < |rows| ==>
              && r[i].txn == rows[i]
              && r[i].total == TotalOf(totals, rows[i].symbol) + Net(rows[..i + 1], rows[i].symbol, m)
  {
    if |rows| == 0 then []
    else
      var t := rows[0];
      var total := TotalOf(totals, t.symbol) + Contribution(t, m);
      var rest := RunningTotals(rows[1..], m, totals[t.symbol := total]);
      assert forall i :: 0 < i < |rows| ==> rows[..i + 1][1..] == rows[1..][..i];
      [Entry(t, total)] + rest
  }

  /** What `groupby([date, symbol]).last()` keeps of a (day, symbol): the
      price and running total of that group's last row. */
  datatype Snapshot = Snapshot(price: real, total: real)

  /** Row `i` is the last one whose trade falls on cell `c`. */
  predicate LastOnCell(entries: seq<Entry>, i: int, c: Cell)
    requires 0 <= i < |entries|
  {
    && TradeCell(entries[i].txn) == c
    && forall j :: i < j < |entries| ==> TradeCell(entries[j].txn) != c
  }

  /** The end-of-day snapshot table, keyed by (day, symbol): later rows overwrite earlier ones. */
  function DailySnapshots(entries: seq<Entry>): (snaps: map<Cell, Snapshot>)
    ensures forall c :: c in snaps <==> exists i :: 0 <= i < |entries| && TradeCell(entries[i].txn) == c
  {
    if |entries| == 0 then map[]
    else
      var init, e := entries[..|entries| - 1], entries[|entries| - 1];
      assert forall i :: 0 <= i < |init| ==> init[i] == entries[i];
      DailySnapshots(init)[TradeCell(e.txn) := Snapshot(e.txn.price, e.total)]
  }

  /** Each snapshot is the price and total of its cell's last row. */
  lemma {:induction false} DailySnapshotsKeepLast(entries: seq<Entry>, c: Cell)
    requires c in DailySnapshots(entries)
    ensures exists i :: 0 <= i < |entries| && LastOnCell(entries, i, c)
                     && DailySnapshots(entries)[c] == Snapshot(entries[i].txn.price, entries[i].total)
  {
    var n := |entries|;
    var init, e := entries[..n - 1], entries[n - 1];
    assert forall i :: 0 <= i < |init| ==> init[i] == entries[i];
    if TradeCell(e.txn) == c {
      assert LastOnCell(entries, n - 1, c);
    } else {
      DailySnapshotsKeepLast(init, c);
      var i :| 0 <= i < |init| && LastOnCell(init, i, c)
               && DailySnapshots(init)[c] == Snapshot(init[i].txn.price, init[i].total);
      assert LastOnCell(entries, i, c);
    }
  }

  /** The snapshot table of a measure, computed from the ledger as the source does. */
  function SnapshotTable(ledger: seq<Transaction>, m: Measure): map<Cell, Snapshot> {
    DailySnapshots(RunningTotals(SortByTradeDate(ledger), m, map[]))
  }

  /** The running total of a row is its symbol's total through the end of its
      day, whenever the row is its day's last for the symbol. */
  lemma SnapshotTotalIsHolding(sorted: seq<Transaction>, i: nat, m: Measure)
    requires SortedByTime(sorted)
    requires i < |sorted|
    requires forall j :: i < j < |sorted| ==> TradeCell(sorted[j]) != TradeCell(sorted[i])
    ensures Net(sorted[..i + 1], sorted[i].symbol, m)
            == NetThrough(sorted, sorted[i].symbol, sorted[i].tradeDate.day, m)
  {
    var s, d := sorted[i].symbol, sorted[i].tradeDate.day;
    assert sorted == sorted[..i + 1] + sorted[i + 1..];
    NetThroughAppend(sorted[..i + 1], sorted[i + 1..], s, d, m);
    NetThroughOfEarlierRows(sorted[..i + 1], s, d, m);
    NetThroughOfOtherRows(sorted[i + 1..], s, d, m);
  }

  /** Each (day, symbol) with trades has exactly one snapshot; it holds the
      symbol's holding at the end of that day, and the price of the day's
      latest trade. Nothing else has a snapshot. */
  lemma SnapshotTableMatchesLedger(ledger: seq<Transaction>, m: Measure)
    ensures forall c :: c in SnapshotTable(ledger, m) <==> TradedOn(ledger, c)
    ensures forall c :: c in SnapshotTable(ledger, m) ==>
              Some(SnapshotTable(ledger, m)[c].total) == HoldingThrough(ledger, c.symbol, c.date, m)
    ensures forall c :: c in SnapshotTable(ledger, m) ==> IsLatestPrice(ledger, c, SnapshotTable(ledger, m)[c].price)
  {
    forall c
      ensures c in SnapshotTable(ledger, m) <==> TradedOn(ledger, c)
    {
      SnapshotKeyIsTradedCell(ledger, m, c);
    }
    forall c | c in SnapshotTable(ledger, m)
      ensures Some(SnapshotTable(ledger, m)[c].total) == HoldingThrough(ledger, c.symbol, c.date, m)
      ensures IsLatestPrice(ledger, c, SnapshotTable(ledger, m)[c].price)
    {
      SnapshotOnCell(ledger, m, c);
    }
  }

  /** A cell has a snapshot exactly when some trade of the ledger falls on it. */
  lemma SnapshotKeyIsTradedCell(ledger: seq<Transaction>, m: Measure, c: Cell)
    ensures c in SnapshotTable(ledger, m) <==> TradedOn(ledger, c)
  {
    var sorted := SortByTradeDate(ledger);
    var entries := RunningTotals(sorted, m, map[]);
    var snaps := SnapshotTable(ledger, m);
    if c in snaps {
      var i :| 0 <= i < |entries| && TradeCell(entries[i].txn) == c;
      assert sorted[i] in multiset(ledger);
    }
    if TradedOn(ledger, c) {
      var i :| 0 <= i < |ledger| && TradeCell(ledger[i]) == c;
      assert ledger[i] in multiset(sorted);
      var k :| 0 <= k < |sorted| && sorted[k] == ledger[i];
      assert TradeCell(entries[k].txn) == c;
    }
  }

  /** A cell's snapshot holds the holding at the end of its day and the price
      of a trade on it that no other trade on it follows. */
  lemma SnapshotOnCell(ledger: seq<Transaction>, m: Measure, c: Cell)
    requires c in SnapshotTable(ledger, m)
    ensures Some(SnapshotTable(ledger, m)[c].total) == HoldingThrough(ledger, c.symbol, c.date, m)
    ensures IsLatestPrice(ledger, c, SnapshotTable(ledger, m)[c].price)
  {
    var sorted := SortByTradeDate(ledger);
    var entries := RunningTotals(sorted, m, map[]);
    var snaps := SnapshotTable(ledger, m);
    DailySnapshotsKeepLast(entries, c);
    var i :| 0 <= i < |entries| && LastOnCell(entries, i, c)
             && snaps[c] == Snapshot(entries[i].txn.price, entries[i].total);
    SnapshotTotalIsHolding(sorted, i, m);
    NetThroughPermutation(sorted, ledger, c.symbol, c.date, m);
    assert sorted[i] in multiset(ledger);
    var k :| 0 <= k < |ledger| && ledger[k] == sorted[i];
    assert TradedThrough(ledger, c.symbol, c.date);
    forall j | 0 <= j < |ledger| && TradeCell(ledger[j]) == c
      ensures NotAfter(ledger[j].tradeDate, ledger[k].tradeDate)
    {
      assert ledger[j] in multiset(sorted);
      var h :| 0 <= h < |sorted| && sorted[h] == ledger[j];
      assert TradeCell(entries[h].txn) == c;
      assert h <= i;
    }
  }

  /** `price` is the price of a trade on cell `c` that no other trade on `c` follows. */
  predicate IsLatestPrice(ledger: seq<Transaction>, c: Cell, price: real) {
    exists k :: 0 <= k < |ledger| && TradeCell(ledger[k]) == c && ledger[k].price == price
             && forall j :: 0 <= j < |ledger| && TradeCell(ledger[j]) == c ==> NotAfter(ledger[j].tradeDate, ledger[k].tradeDate)
  }

  /** With distinct timestamps, the latest price of a day does not depend on
      the order in which the ledger lists its trades. */
  lemma {:induction false} LatestPriceIsUnique(a: seq<Transaction>, b: seq<Transaction>, c: Cell, x: real, y: real)
    requires multiset(a) == multiset(b) && DistinctTimestamps(a)
    requires IsLatestPrice(a, c, x) && IsLatestPrice(b, c, y)
    ensures x == y
  {
    var k1 :| 0 <= k1 < |a| && TradeCell(a[k1]) == c && a[k1].price == x
              && forall j :: 0 <= j < |a| && TradeCell(a[j]) == c ==> NotAfter(a[j].tradeDate, a[k1].tradeDate);
    var k2 :| 0 <= k2 < |b| && TradeCell(b[k2]) == c && b[k2].price == y
              && forall j :: 0 <= j < |b| && TradeCell(b[j]) == c ==> NotAfter(b[j].tradeDate, b[k2].tradeDate);
    assert b[k2] in multiset(a);
    var j1 :| 0 <= j1 < |a| && a[j1] == b[k2];
    assert a[k1] in multiset(b);
    var j2 :| 0 <= j2 < |b| && b[j2] == a[k1];
    assert NotAfter(a[j1].tradeDate, a[k1].tradeDate);
    assert NotAfter(b[j2].tradeDate, b[k2].tradeDate);
    assert a[j1].tradeDate == a[k1].tradeDate;
    assert a[j1].symbol == a[k1].symbol;
    assert j1 == k1;
  }

  /** An independent reference for the snapshot price: scanning the ledger,
      the trade on cell `c` with the latest timestamp (on a tie, the one
      listed last). */
  function LatestTrade(ledger: seq<Transaction>, c: Cell): (r: Option<Transaction>)
    ensures r.Some? <==> TradedOn(ledger, c)
    ensures r.Some? ==> exists k :: 0 <= k < |ledger| && ledger[k] == r.value
    ensures r.Some? ==> TradeCell(r.value) == c
    ensures r.Some? ==> forall j :: 0 <= j < |ledger| && TradeCell(ledger[j]) == c ==> NotAfter(ledger[j].tradeDate, r.value.tradeDate)
  {
    if |ledger| == 0 then None
    else
      var init, t := ledger[..|ledger| - 1], ledger[|ledger| - 1];
      assert forall j :: 0 <= j < |init| ==> init[j] == ledger[j];
      var rest := LatestTrade(init, c);
      if TradeCell(t) != c then rest
      else if rest.Some? && !NotAfter(rest.value.tradeDate, t.tradeDate) then rest
      else Some(t)
  }

  /** The price of the latest trade on a cell, if it has one. */
  function LatestTradePrice(ledger: seq<Transaction>, c: Cell): Option<real> {
    match LatestTrade(ledger, c)
    case Some(t) => Some(t.price)
    case None => None
  }

  /** With distinct timestamps, the snapshot price of a cell is the price of
      the cell's latest trade, however the ledger is ordered. */
  lemma SnapshotPriceIsLatestTrade(ledger: seq<Transaction>, m: Measure, c: Cell)
    requires DistinctTimestamps(ledger)
    ensures c in SnapshotTable(ledger, m) <==> LatestTradePrice(ledger, c).Some?
    ensures c in SnapshotTable(ledger, m) ==> LatestTradePrice(ledger, c) == Some(SnapshotTable(ledger, m)[c].price)
  {
    SnapshotTableMatchesLedger(ledger, m);
    var snaps := SnapshotTable(ledger, m);
    if c in snaps {
      var t := LatestTrade(ledger, c).value;
      var k :| 0 <= k < |ledger| && ledger[k] == t;
      assert IsLatestPrice(ledger, c, t.price);
      LatestPriceIsUnique(ledger, ledger, c, t.price, snaps[c].price);
    }
  }

  /** A trade that no other trade on its cell follows sets the cell's latest price. */
  lemma LatestTradePriceAt(ledger: seq<Transaction>, c: Cell, k: nat)
    requires DistinctTimestamps(ledger) && k < |ledger| && TradeCell(ledger[k]) == c
    requires forall j :: 0 <= j < |ledger| && TradeCell(ledger[j]) == c ==> NotAfter(ledger[j].tradeDate, ledger[k].tradeDate)
    ensures LatestTradePrice(ledger, c) == Some(ledger[k].price)
  {
    assert TradedOn(ledger, c);
    var t := LatestTrade(ledger, c).value;
    var h :| 0 <= h < |ledger| && ledger[h] == t;
    assert IsLatestPrice(ledger, c, t.price);
    assert IsLatestPrice(ledger, c, ledger[k].price);
    LatestPriceIsUnique(ledger, ledger, c, t.price, ledger[k].price);
  }
}
