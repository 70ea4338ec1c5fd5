/** The end-of-day quote source, an external collaborator reduced to a pure
    function, and the quote table the portfolio gathers from it. */
module Quotes {
  import opened Wrappers
  import opened Ledger
  import opened Fill

  /** `get_oed_prices(symbol, date_from, date_to)`: the quotes known for a symbol over a range. */
  type QuoteSource = (Symbol, Day, Day) -> seq<Quote>

  /** The `NullQuoteFetcher`: no quotes, ever. */
  function NoQuotes(symbol: Symbol, from: Day, to: Day): (r: seq<Quote>)
    ensures |r| == 0
  {
    []
  }

  /** The source used when none is given (`quote_fetcher or NullQuoteFetcher()`). */
  function SourceOrDefault(source: Option<QuoteSource>): QuoteSource {
    match source
    case Some(f) => f
    case None => NoQuotes
  }

  /** No two quotes share a (date, symbol): the merge then matches each cell at most once. */
  predicate UniqueQuoteCells(quotes: seq<Quote>) {
    forall i, j :: 0 <= i < j < |quotes| ==> QuoteCell(quotes[i]) != QuoteCell(quotes[j])
  }

  /** The `close` column merged onto a cell: the close of the quote for that
      cell, missing when no quote has the cell or the quote's close is. */
  function CloseOn(quotes: seq<Quote>, c: Cell): (r: Option<real>)
    ensures r.Some? ==> exists i :: 0 <= i < |quotes| && QuoteCell(quotes[i]) == c && quotes[i].close == r
    ensures (forall i :: 0 <= i < |quotes| ==> QuoteCell(quotes[i]) != c) ==> r.None?
  {
    if |quotes| == 0 then None
    else if QuoteCell(quotes[0]) == c then quotes[0].close
    else
      assert forall i :: 1 <= i < |quotes| ==> quotes[1..][i - 1] == quotes[i];
      CloseOn(quotes[1..], c)
  }

  /** With unique quote cells, the close on a cell is that of its one quote. */
  lemma {:induction false} CloseOnUniqueQuote(quotes: seq<Quote>, i: nat)
    requires UniqueQuoteCells(quotes) && i < |quotes|
    ensures CloseOn(quotes, QuoteCell(quotes[i])) == quotes[i].close
  {
    if i > 0 {
      assert QuoteCell(quotes[0]) != QuoteCell(quotes[i]);
      assert quotes[1..][i - 1] == quotes[i];
      assert UniqueQuoteCells(quotes[1..]) by {
        forall a, b | 0 <= a < b < |quotes| - 1
          ensures QuoteCell(quotes[1..][a]) != QuoteCell(quotes[1..][b])
        {
          assert quotes[1..][a] == quotes[a + 1] && quotes[1..][b] == quotes[b + 1];
        }
      }
      CloseOnUniqueQuote(quotes[1..], i - 1);
    }
  }

  /** pandas' `unique()`: each value of `xs` once. The body keeps the order
      of first appearance; the contract states only distinctness and membership. */
  function UniqueInOrder(xs: seq<Symbol>): (r: seq<Symbol>)
    ensures Distinct(r)
    ensures forall y :: y in r <==> y in xs
  {
    if |xs| == 0 then []
    else
      var init, x := xs[..|xs| - 1], xs[|xs| - 1];
      assert forall y :: y in xs <==> y in init || y == x;
      var seen := UniqueInOrder(init);
      if x in seen then seen else seen + [x]
  }

  /** The per-symbol quote tables concatenated, one request per symbol. */
  function GatherQuotes(syms: seq<Symbol>, source: QuoteSource, from: Day, to: Day): (r: seq<Quote>)
    ensures forall q :: q in r <==> exists k :: 0 <= k < |syms| && q in source(syms[k], from, to)
  {
    if |syms| == 0 then []
    else
      var init := syms[..|syms| - 1];
      assert forall k :: 0 <= k < |init| ==> init[k] == syms[k];
      GatherQuotes(init, source, from, to) + source(syms[|syms| - 1], from, to)
  }

  /** A well-behaved source answers each request with quotes of the requested
      symbol only, at most one per date. */
  ghost predicate ServesOwnSymbol(source: QuoteSource) {
    forall s, from, to :: UniqueQuoteCells(source(s, from, to)) && (forall q :: q in source(s, from, to) ==> q.symbol == s)
  }

  lemma NoQuotesServesOwnSymbol()
    ensures ServesOwnSymbol(NoQuotes)
  {
    forall s, from, to
      ensures UniqueQuoteCells(NoQuotes(s, from, to)) && (forall q :: q in NoQuotes(s, from, to) ==> q.symbol == s)
    {
      assert NoQuotes(s, from, to) == [];
    }
  }

  /** Gathering from a well-behaved source, one request per distinct symbol,
      yields at most one quote per (date, symbol). */
  lemma {:induction false} GatheredQuotesUnique(syms: seq<Symbol>, source: QuoteSource, from: Day, to: Day)
    requires Distinct(syms) && ServesOwnSymbol(source)
    ensures UniqueQuoteCells(GatherQuotes(syms, source, from, to))
  {
    if |syms| > 0 {
      var init, last := syms[..|syms| - 1], syms[|syms| - 1];
      assert forall k :: 0 <= k < |init| ==> init[k] == syms[k];
      GatheredQuotesUnique(init, source, from, to);
      var a, b := GatherQuotes(init, source, from, to), source(last, from, to);
      var ab := GatherQuotes(syms, source, from, to);
      assert ab == a + b;
      forall i, j | 0 <= i < j < |ab|
        ensures QuoteCell(ab[i]) != QuoteCell(ab[j])
      {
        if i < |a| <= j {
          assert ab[i] in a;
          var k :| 0 <= k < |init| && ab[i] in source(init[k], from, to);
          assert ab[j] == b[j - |a|];
          assert ab[i].symbol == init[k] != last == ab[j].symbol;
        } else if j < |a| {
          assert ab[i] == a[i] && ab[j] == a[j];
        } else {
          assert ab[i] == b[i - |a|] && ab[j] == b[j - |a|];
        }
      }
    }
  }

  /** Gathering from the null source yields nothing. */
  lemma {:induction false} GatherNothing(syms: seq<Symbol>, from: Day, to: Day)
    ensures GatherQuotes(syms, NoQuotes, from, to) == []
  {
    if |syms| > 0 {
      GatherNothing(syms[..|syms| - 1], from, to);
    }
  }
}
