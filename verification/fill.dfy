/** The per-symbol forward fill (`groupby('symbol')[col].ffill()`) and the
    per-symbol "last non-missing value" (`groupby('symbol')[col].last()`),
    over one column of a table whose rows are keyed by symbol. */
module Fill {
  import opened Wrappers
  import opened Ledger

  /** The last value seen so far for `s`, if any. */
  function LastKnown(last: map<Symbol, real>, s: Symbol): Option<real> {
    if s in last then Some(last[s]) else None
  }

  /** One step of the scan: a present value stays, an absent one takes the last known. */
  function FillStep(last: map<Symbol, real>, key: Symbol, val: Option<real>): Option<real> {
    val.OrElse(LastKnown(last, key))
  }

  function Remember(last: map<Symbol, real>, key: Symbol, v: Option<real>): map<Symbol, real> {
    if v.Some? then last[key := v.value] else last
  }

  /** Forward fill of `vals` per key, in row order, starting from the values
      already known in `last` (empty for a whole table). */
  function FillForward(keys: seq<Symbol>, vals: seq<Option<real>>, last: map<Symbol, real>): (r: seq<Option<real>>)
    requires |keys| == |vals|
    ensures |r| == |vals|
    ensures forall i :: 0 <= i < |vals| && vals[i].Some? ==> r[i] == vals[i]
  {
    if |vals| == 0 then []
    else
      var v := FillStep(last, keys[0], vals[0]);
      [v] + FillForward(keys[1..], vals[1..], Remember(last, keys[0], v))
  }

  /** The last known values once the scan has passed every row. */
  function Carry(keys: seq<Symbol>, vals: seq<Option<real>>, last: map<Symbol, real>): map<Symbol, real>
    requires |keys| == |vals|
  {
    if |vals| == 0 then last
    else Carry(keys[1..], vals[1..], Remember(last, keys[0], FillStep(last, keys[0], vals[0])))
  }

  /** The latest row before row `n` whose key is `s`. */
  function LastIndexBefore(keys: seq<Symbol>, s: Symbol, n: nat): (r: Option<nat>)
    requires n <= |keys|
    ensures r.Some? ==> r.value < n && keys[r.value] == s && forall j :: r.value < j < n ==> keys[j] != s
    ensures r.None? ==> forall j :: 0 <= j < n ==> keys[j] != s
  {
    if n == 0 then None
    else if keys[n - 1] == s then Some(n - 1)
    else LastIndexBefore(keys, s, n - 1)
  }

  /** What row `i` inherits when its own value is absent: the filled value of
      the previous row with the same key, or the last known value. */
  function Inherited(keys: seq<Symbol>, filled: seq<Option<real>>, last: map<Symbol, real>, i: nat): Option<real>
    requires |keys| == |filled| && i < |keys|
  {
    match LastIndexBefore(keys, keys[i], i)
    case Some(j) => filled[j]
    case None => LastKnown(last, keys[i])
  }

  predicate Distinct(keys: seq<Symbol>) {
    forall i, j :: 0 <= i < j < |keys| ==> keys[i] != keys[j]
  }

  lemma {:induction false} LastIndexBeforeTail(keys: seq<Symbol>, s: Symbol, n: nat)
    requires 1 <= n <= |keys|
    ensures LastIndexBefore(keys, s, n) ==
              match LastIndexBefore(keys[1..], s, n - 1)
              case Some(j) => Some(j + 1)
              case None => if keys[0] == s then Some(0) else None
  {
    if n > 1 && keys[n - 1] != s {
      LastIndexBeforeTail(keys, s, n - 1);
    }
  }

  /** Forward fill, row by row: a present value is kept; an absent one becomes
      the filled value of the previous row of the same symbol, and rows of
      other symbols never contribute. */
  lemma {:induction false} FillForwardInherits(keys: seq<Symbol>, vals: seq<Option<real>>, last: map<Symbol, real>)
    requires |keys| == |vals|
    ensures forall i :: 0 <= i < |vals| ==>
              FillForward(keys, vals, last)[i] == vals[i].OrElse(Inherited(keys, FillForward(keys, vals, last), last, i))
  {
    if |vals| > 0 {
      var r := FillForward(keys, vals, last);
      var v := FillStep(last, keys[0], vals[0]);
      var last' := Remember(last, keys[0], v);
      var r' := FillForward(keys[1..], vals[1..], last');
      assert r == [v] + r';
      FillForwardInherits(keys[1..], vals[1..], last');
      forall i | 1 <= i < |vals|
        ensures r[i] == vals[i].OrElse(Inherited(keys, r, last, i))
      {
        assert r[i] == r'[i - 1];
        assert vals[i] == vals[1..][i - 1] && keys[i] == keys[1..][i - 1];
        LastIndexBeforeTail(keys, keys[i], i);
      }
    }
  }

  lemma {:induction false} FillForwardAppend(k1: seq<Symbol>, v1: seq<Option<real>>, k2: seq<Symbol>, v2: seq<Option<real>>, last: map<Symbol, real>)
    requires |k1| == |v1| && |k2| == |v2|
    ensures FillForward(k1 + k2, v1 + v2, last) == FillForward(k1, v1, last) + FillForward(k2, v2, Carry(k1, v1, last))
  {
    if |k1| == 0 {
      assert k1 + k2 == k2 && v1 + v2 == v2;
    } else {
      assert (k1 + k2)[1..] == k1[1..] + k2 && (v1 + v2)[1..] == v1[1..] + v2;
      FillForwardAppend(k1[1..], v1[1..], k2, v2, Remember(last, k1[0], FillStep(last, k1[0], v1[0])));
    }
  }

  lemma {:induction false} CarryAppend(k1: seq<Symbol>, v1: seq<Option<real>>, k2: seq<Symbol>, v2: seq<Option<real>>, last: map<Symbol, real>)
    requires |k1| == |v1| && |k2| == |v2|
    ensures Carry(k1 + k2, v1 + v2, last) == Carry(k2, v2, Carry(k1, v1, last))
  {
    if |k1| == 0 {
      assert k1 + k2 == k2 && v1 + v2 == v2;
    } else {
      assert (k1 + k2)[1..] == k1[1..] + k2 && (v1 + v2)[1..] == v1[1..] + v2;
      CarryAppend(k1[1..], v1[1..], k2, v2, Remember(last, k1[0], FillStep(last, k1[0], v1[0])));
    }
  }

  /** Over rows with distinct keys (one date's row per symbol), each row takes its
      own value or the last known one, and the carried values are the filled ones. */
  lemma {:induction false} FillDistinctKeys(keys: seq<Symbol>, vals: seq<Option<real>>, last: map<Symbol, real>)
    requires |keys| == |vals| && Distinct(keys)
    ensures forall j :: 0 <= j < |keys| ==> FillForward(keys, vals, last)[j] == FillStep(last, keys[j], vals[j])
    ensures forall j :: 0 <= j < |keys| ==> LastKnown(Carry(keys, vals, last), keys[j]) == FillForward(keys, vals, last)[j]
    ensures forall s :: s !in keys ==> LastKnown(Carry(keys, vals, last), s) == LastKnown(last, s)
  {
    if |keys| > 0 {
      var v := FillStep(last, keys[0], vals[0]);
      var last' := Remember(last, keys[0], v);
      FillDistinctKeys(keys[1..], vals[1..], last');
      var r := FillForward(keys, vals, last);
      assert r == [v] + FillForward(keys[1..], vals[1..], last');
      assert keys[0] !in keys[1..];
      forall j | 1 <= j < |keys|
        ensures r[j] == FillStep(last, keys[j], vals[j])
        ensures LastKnown(Carry(keys, vals, last), keys[j]) == r[j]
      {
        assert keys[j] == keys[1..][j - 1] && keys[j] != keys[0];
      }
    }
  }

  /** The fill of a symbol's rows depends on nothing but that symbol's rows. */
  lemma {:induction false} FillIsPerSymbol(keys: seq<Symbol>, vals1: seq<Option<real>>, vals2: seq<Option<real>>,
                                           last1: map<Symbol, real>, last2: map<Symbol, real>, s: Symbol)
    requires |keys| == |vals1| == |vals2|
    requires forall i :: 0 <= i < |keys| && keys[i] == s ==> vals1[i] == vals2[i]
    requires LastKnown(last1, s) == LastKnown(last2, s)
    ensures forall i :: 0 <= i < |keys| && keys[i] == s ==>
              FillForward(keys, vals1, last1)[i] == FillForward(keys, vals2, last2)[i]
  {
    if |keys| > 0 {
      var w1 := FillStep(last1, keys[0], vals1[0]);
      var w2 := FillStep(last2, keys[0], vals2[0]);
      FillIsPerSymbol(keys[1..], vals1[1..], vals2[1..], Remember(last1, keys[0], w1), Remember(last2, keys[0], w2), s);
      forall i | 1 <= i < |keys| && keys[i] == s
        ensures FillForward(keys, vals1, last1)[i] == FillForward(keys, vals2, last2)[i]
      {
        assert keys[i] == keys[1..][i - 1];
      }
    }
  }

  /** Once a symbol's filled value is present, it stays present on its later rows. */
  lemma {:induction false} FillPersists(keys: seq<Symbol>, vals: seq<Option<real>>, last: map<Symbol, real>, j: nat, i: nat)
    requires |keys| == |vals| && j < i < |keys| && keys[j] == keys[i]
    requires FillForward(keys, vals, last)[j].Some?
    ensures FillForward(keys, vals, last)[i].Some?
    decreases i
  {
    FillForwardInherits(keys, vals, last);
    var p := LastIndexBefore(keys, keys[i], i);
    if vals[i].None? {
      var k := p.value;
      if k != j {
        FillPersists(keys, vals, last, j, k);
      }
    }
  }

  /** pandas' `last()` of a group: the value of the group's last row that has one. */
  function LastDefinedFor(keys: seq<Symbol>, vals: seq<Option<real>>, s: Symbol): (r: Option<real>)
    requires |keys| == |vals|
    ensures r.Some? ==> exists i :: 0 <= i < |keys| && keys[i] == s && vals[i] == r
                                  && forall j :: i < j < |keys| && keys[j] == s ==> vals[j].None?
    ensures r.None? ==> forall i :: 0 <= i < |keys| && keys[i] == s ==> vals[i].None?
  {
    var n := |keys|;
    if n == 0 then None
    else if keys[n - 1] == s && vals[n - 1].Some? then vals[n - 1]
    else
      assert forall i :: 0 <= i < n - 1 ==> keys[..n - 1][i] == keys[i] && vals[..n - 1][i] == vals[i];
      LastDefinedFor(keys[..n - 1], vals[..n - 1], s)
  }

  /** On a forward-filled column, the last non-missing value of a symbol is
      simply the value on the symbol's last row. */
  lemma LastOfFilled(keys: seq<Symbol>, vals: seq<Option<real>>, last: map<Symbol, real>, s: Symbol)
    requires |keys| == |vals| && s in keys
    ensures LastIndexBefore(keys, s, |keys|).Some?
    ensures LastDefinedFor(keys, FillForward(keys, vals, last), s)
            == FillForward(keys, vals, last)[LastIndexBefore(keys, s, |keys|).value]
  {
    var r := FillForward(keys, vals, last);
    var p := LastIndexBefore(keys, s, |keys|);
    var i := p.value;
    var res := LastDefinedFor(keys, r, s);
    if r[i].Some? {
      var i0 :| 0 <= i0 < |keys| && keys[i0] == s && r[i0] == res
                && forall j :: i0 < j < |keys| && keys[j] == s ==> r[j].None?;
      assert i0 == i;
    } else {
      forall j | 0 <= j < |keys| && keys[j] == s
        ensures r[j].None?
      {
        if j < i && r[j].Some? {
          FillPersists(keys, vals, last, j, i);
        }
      }
    }
  }

  /** A filled value is present exactly when a value was already known for the
      key, or the key had one on this row or on an earlier row. */
  lemma {:induction false} FillDefined(keys: seq<Symbol>, vals: seq<Option<real>>, last: map<Symbol, real>, i: nat)
    requires |keys| == |vals| && i < |keys|
    ensures FillForward(keys, vals, last)[i].Some? <==>
            LastKnown(last, keys[i]).Some? || exists j :: 0 <= j <= i && keys[j] == keys[i] && vals[j].Some?
    decreases i
  {
    var r := FillForward(keys, vals, last);
    FillForwardInherits(keys, vals, last);
    match LastIndexBefore(keys, keys[i], i)
    case None =>
      assert forall j :: 0 <= j < i ==> keys[j] != keys[i];
    case Some(k) =>
      FillDefined(keys, vals, last, k);
      assert forall j :: k < j < i ==> keys[j] != keys[i];
      if exists j :: 0 <= j <= k && keys[j] == keys[i] && vals[j].Some? {
        var j :| 0 <= j <= k && keys[j] == keys[i] && vals[j].Some?;
        assert 0 <= j <= i;
      }
  }

  /** A row without a value of its own takes the filled value of the previous
      row with the same key, or the last known value on the key's first row. */
  lemma FillCarries(keys: seq<Symbol>, vals: seq<Option<real>>, last: map<Symbol, real>, j: nat, i: nat)
    requires |keys| == |vals| && i < |keys| && vals[i].None?
    requires j < i && keys[j] == keys[i] && forall k :: j < k < i ==> keys[k] != keys[i]
    ensures FillForward(keys, vals, last)[i] == FillForward(keys, vals, last)[j]
  {
    var r := FillForward(keys, vals, last);
    assert LastIndexBefore(keys, keys[i], i) == Some(j);
    FillForwardInherits(keys, vals, last);
    assert r[i] == vals[i].OrElse(Inherited(keys, r, last, i));
  }

  lemma FillStarts(keys: seq<Symbol>, vals: seq<Option<real>>, last: map<Symbol, real>, i: nat)
    requires |keys| == |vals| && i < |keys| && vals[i].None?
    requires forall k :: 0 <= k < i ==> keys[k] != keys[i]
    ensures FillForward(keys, vals, last)[i] == LastKnown(last, keys[i])
  {
    FillForwardInherits(keys, vals, last);
  }
}
