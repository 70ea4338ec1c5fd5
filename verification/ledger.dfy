/** The input tables of the portfolio reconstruction: the transaction ledger
    and the end-of-day quotes, with the per-symbol sums that define what a
    position is independently of how the ledger happens to be ordered. */
module Ledger {
  import opened Wrappers

  /** A calendar day, counted in days since 1970-01-01. */
  type Day = int

  /** A ticker symbol such as "IWDA" or "EUNA.DE". */
  type Symbol = string

  /** A time of day in nanoseconds since midnight, the resolution of pandas' `datetime64[ns]`. */
  type NanoOfDay = t: int | 0 <= t < 86_400_000_000_000

  /** The moment a trade was executed: its calendar day and its time of day. */
  datatype Timestamp = Timestamp(day: Day, nanos: NanoOfDay)

  /** Chronological order on timestamps (ties allowed). */
  predicate NotAfter(a: Timestamp, b: Timestamp) {
    a.day < b.day || (a.day == b.day && a.nanos <= b.nanos)
  }

  datatype Side = Buy | Sell

  /** One ledger row: `trade_date`, `symbol`, `side`, `price`, `quantity`. */
  datatype Transaction = Transaction(tradeDate: Timestamp, symbol: Symbol, side: Side, price: real, quantity: real)

  /** One end-of-day quote: `date`, `symbol`, `close`; the close is `None`
      where the fetched value is NaN. */
  datatype Quote = Quote(date: Day, symbol: Symbol, close: Option<real>)

  /** A (date, symbol) key, the join key of every merge in the reconstruction. */
  datatype Cell = Cell(date: Day, symbol: Symbol)

  function TradeCell(t: Transaction): Cell {
    Cell(t.tradeDate.day, t.symbol)
  }

  function QuoteCell(q: Quote): Cell {
    Cell(q.date, q.symbol)
  }

  /** The quantity with the side's sign: a buy adds to the position, a sell removes from it. */
  function SignedQuantity(t: Transaction): real {
    match t.side
    case Buy => t.quantity
    case Sell => -t.quantity
  }

  /** What a running total accumulates: the number of units held (`position`),
      or the capital put in (`invested`, price times signed quantity). */
  datatype Measure = Units | Capital

  function Contribution(t: Transaction, m: Measure): real {
    match m
    case Units => SignedQuantity(t)
    case Capital => t.price * SignedQuantity(t)
  }

  /** The contribution of `t` to symbol `s`'s total: nothing from other symbols. */
  function ContributionTo(t: Transaction, s: Symbol, m: Measure): real {
    if t.symbol == s then Contribution(t, m) else 0.0
  }

  /** Sum of the contributions of all of `rows`' trades in symbol `s`. */
  function Net(rows: seq<Transaction>, s: Symbol, m: Measure): real {
    if |rows| == 0 then 0.0 else ContributionTo(rows[0], s, m) + Net(rows[1..], s, m)
  }

  /** Sum of the contributions of `rows`' trades in symbol `s` executed on day `d` or earlier. */
  function NetThrough(rows: seq<Transaction>, s: Symbol, d: Day, m: Measure): real {
    if |rows| == 0 then 0.0
    else (if rows[0].tradeDate.day <= d then ContributionTo(rows[0], s, m) else 0.0) + NetThrough(rows[1..], s, d, m)
  }

  /** Cell `c`'s symbol has at least one trade on `c`'s date. */
  predicate TradedOn(rows: seq<Transaction>, c: Cell) {
    exists i :: 0 <= i < |rows| && TradeCell(rows[i]) == c
  }

  /** Symbol `s` has at least one trade on day `d` or earlier. */
  predicate TradedThrough(rows: seq<Transaction>, s: Symbol, d: Day) {
    exists i :: 0 <= i < |rows| && rows[i].symbol == s && rows[i].tradeDate.day <= d
  }

  /** No two trades in the same symbol carry the same timestamp, so the latest
      trade of a day is well defined. */
  predicate DistinctTimestamps(rows: seq<Transaction>) {
    forall i, j :: 0 <= i < j < |rows| && rows[i].symbol == rows[j].symbol ==> rows[i].tradeDate != rows[j].tradeDate
  }

  /** The end-of-day holding of `s` on day `d`: absent before the symbol's
      first trade, and the running total of everything traded up to and
      including day `d` from then on. This is the reference the forward-filled
      `position` (and `invested`) columns are proved against. */
  function HoldingThrough(rows: seq<Transaction>, s: Symbol, d: Day, m: Measure): Option<real> {
    if TradedThrough(rows, s, d) then Some(NetThrough(rows, s, d, m)) else None
  }

  lemma {:induction false} NetThroughAppend(a: seq<Transaction>, b: seq<Transaction>, s: Symbol, d: Day, m: Measure)
    ensures NetThrough(a + b, s, d, m) == NetThrough(a, s, d, m) + NetThrough(b, s, d, m)
  {
    if |a| > 0 {
      assert (a + b)[1..] == a[1..] + b;
      NetThroughAppend(a[1..], b, s, d, m);
    } else {
      assert a + b == b;
    }
  }

  /** Where no row is later than day `d`, the bounded sum is the whole sum. */
  lemma {:induction false} NetThroughOfEarlierRows(rows: seq<Transaction>, s: Symbol, d: Day, m: Measure)
    requires forall i :: 0 <= i < |rows| ==> rows[i].tradeDate.day <= d
    ensures NetThrough(rows, s, d, m) == Net(rows, s, m)
  {
    if |rows| > 0 {
      NetThroughOfEarlierRows(rows[1..], s, d, m);
    }
  }

  /** Rows none of which is a trade in `s` on or before `d` contribute nothing. */
  lemma {:induction false} NetThroughOfOtherRows(rows: seq<Transaction>, s: Symbol, d: Day, m: Measure)
    requires forall i :: 0 <= i < |rows| ==> rows[i].symbol != s || rows[i].tradeDate.day > d
    ensures NetThrough(rows, s, d, m) == 0.0
  {
    if |rows| > 0 {
      NetThroughOfOtherRows(rows[1..], s, d, m);
    }
  }

  /** The bounded per-symbol sum does not depend on the order of the ledger rows. */
  lemma {:induction false} NetThroughPermutation(a: seq<Transaction>, b: seq<Transaction>, s: Symbol, d: Day, m: Measure)
    requires multiset(a) == multiset(b)
    ensures NetThrough(a, s, d, m) == NetThrough(b, s, d, m)
    decreases |a|
  {
    if |a| == 0 {
      assert |b| == |multiset(b)| == 0;
    } else {
      assert a[0] in multiset(b);
      var k :| 0 <= k < |b| && b[k] == a[0];
      var rest := b[..k] + b[k + 1..];
      assert b == b[..k] + [b[k]] + b[k + 1..];
      RemoveMatchingRow(a, b, k);
      NetThroughPermutation(a[1..], rest, s, d, m);
      NetThroughAppend(b[..k] + [b[k]], b[k + 1..], s, d, m);
      NetThroughAppend(b[..k], [b[k]], s, d, m);
      NetThroughAppend(b[..k], b[k + 1..], s, d, m);
    }
  }

  lemma HoldingThroughPermutation(a: seq<Transaction>, b: seq<Transaction>, s: Symbol, d: Day, m: Measure)
    requires multiset(a) == multiset(b)
    ensures HoldingThrough(a, s, d, m) == HoldingThrough(b, s, d, m)
  {
    NetThroughPermutation(a, b, s, d, m);
    if TradedThrough(a, s, d) {
      var i :| 0 <= i < |a| && a[i].symbol == s && a[i].tradeDate.day <= d;
      assert a[i] in multiset(b);
    }
    if TradedThrough(b, s, d) {
      var i :| 0 <= i < |b| && b[i].symbol == s && b[i].tradeDate.day <= d;
      assert b[i] in multiset(a);
    }
  }

  /** Without trades in `s` on the days after `d1` up to `d2`, the holding
      at the end of `d2` is the one at the end of `d1`. */
  lemma {:induction false} HoldingSteady(rows: seq<Transaction>, s: Symbol, d1: Day, d2: Day, m: Measure)
    requires d1 <= d2
    requires forall i :: 0 <= i < |rows| && rows[i].symbol == s ==> !(d1 < rows[i].tradeDate.day <= d2)
    ensures HoldingThrough(rows, s, d2, m) == HoldingThrough(rows, s, d1, m)
  {
    NetThroughSteady(rows, s, d1, d2, m);
    if TradedThrough(rows, s, d2) {
      var i :| 0 <= i < |rows| && rows[i].symbol == s && rows[i].tradeDate.day <= d2;
      assert rows[i].tradeDate.day <= d1;
    }
  }

  lemma {:induction false} NetThroughSteady(rows: seq<Transaction>, s: Symbol, d1: Day, d2: Day, m: Measure)
    requires d1 <= d2
    requires forall i :: 0 <= i < |rows| && rows[i].symbol == s ==> !(d1 < rows[i].tradeDate.day <= d2)
    ensures NetThrough(rows, s, d2, m) == NetThrough(rows, s, d1, m)
  {
    if |rows| > 0 {
      NetThroughSteady(rows[1..], s, d1, d2, m);
    }
  }

  /** Once a symbol holds a position it never becomes absent again. */
  lemma HoldingPersists(rows: seq<Transaction>, s: Symbol, d1: Day, d2: Day, m: Measure)
    requires d1 <= d2
    ensures HoldingThrough(rows, s, d1, m).Some? ==> HoldingThrough(rows, s, d2, m).Some?
  {
    if TradedThrough(rows, s, d1) {
      var i :| 0 <= i < |rows| && rows[i].symbol == s && rows[i].tradeDate.day <= d1;
      assert rows[i].tradeDate.day <= d2;
    }
  }

  lemma RemoveMatchingRow<T>(a: seq<T>, b: seq<T>, k: nat)
    requires multiset(a) == multiset(b)
    requires |a| > 0 && k < |b| && b[k] == a[0]
    ensures multiset(a[1..]) == multiset(b[..k] + b[k + 1..])
  {
    assert a == [a[0]] + a[1..];
    assert b == b[..k] + [b[k]] + b[k + 1..];
    calc {
      multiset(a[1..]);
      multiset(a) - multiset{a[0]};
      multiset(b) - multiset{b[k]};
      multiset(b[..k]) + multiset(b[k + 1..]);
      multiset(b[..k] + b[k + 1..]);
    }
  }
}
