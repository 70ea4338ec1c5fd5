/** Strict total orders, and the sorted duplicate-free sequences that pandas'
    sorting `unique` and outer-merge key ordering produce. */
module Ordering {

  /** `lt` is irreflexive, transitive and relates every two distinct values. */
  ghost predicate StrictTotalOrder<T(!new)>(lt: (T, T) -> bool) {
    && (forall x :: !lt(x, x))
    && (forall x, y, z :: lt(x, y) && lt(y, z) ==> lt(x, z))
    && (forall x, y :: x != y ==> lt(x, y) || lt(y, x))
  }

  /** Every element is strictly below every later one, so there are no duplicates. */
  predicate StrictlySorted<T>(xs: seq<T>, lt: (T, T) -> bool) {
    forall i, j :: 0 <= i < j < |xs| ==> lt(xs[i], xs[j])
  }

  /** The order on calendar days (and on any integer key). */
  predicate IntLess(a: int, b: int) {
    a < b
  }

  /** Code-point lexicographic order on strings, the order Python uses for `str`. */
  predicate StringLess(a: string, b: string) {
    if |a| == 0 then |b| > 0
    else if |b| == 0 then false
    else if a[0] != b[0] then a[0] < b[0]
    else StringLess(a[1..], b[1..])
  }

  lemma IntLessIsStrictTotalOrder()
    ensures StrictTotalOrder(IntLess)
  {
  }

  lemma StringLessIrreflexive(a: string)
    ensures !StringLess(a, a)
  {
  }

  lemma StringLessTransitive(a: string, b: string, c: string)
    requires StringLess(a, b) && StringLess(b, c)
    ensures StringLess(a, c)
  {
    if |a| > 0 && |b| > 0 && |c| > 0 && a[0] == b[0] && b[0] == c[0] {
      StringLessTransitive(a[1..], b[1..], c[1..]);
    }
  }

  lemma StringLessConnected(a: string, b: string)
    requires a != b
    ensures StringLess(a, b) || StringLess(b, a)
  {
    if |a| > 0 && |b| > 0 && a[0] == b[0] {
      assert a == [a[0]] + a[1..] && b == [b[0]] + b[1..];
      StringLessConnected(a[1..], b[1..]);
    }
  }

  lemma StringLessIsStrictTotalOrder()
    ensures StrictTotalOrder(StringLess)
  {
    forall a: string
      ensures !StringLess(a, a)
    {
      StringLessIrreflexive(a);
    }
    forall a: string, b: string, c: string | StringLess(a, b) && StringLess(b, c)
      ensures StringLess(a, c)
    {
      StringLessTransitive(a, b, c);
    }
    forall a: string, b: string | a != b
      ensures StringLess(a, b) || StringLess(b, a)
    {
      StringLessConnected(a, b);
    }
  }

  /** Adds `x` to a strictly sorted sequence, leaving it unchanged if `x` is already there. */
  function InsertSorted<T(==,!new)>(xs: seq<T>, x: T, lt: (T, T) -> bool): (r: seq<T>)
    requires StrictTotalOrder(lt)
    requires StrictlySorted(xs, lt)
    ensures StrictlySorted(r, lt)
    ensures forall y :: y in r <==> y in xs || y == x
  {
    if |xs| == 0 then [x]
    else if x == xs[0] then xs
    else if lt(x, xs[0]) then [x] + xs
    else
      var rest := InsertSorted(xs[1..], x, lt);
      assert forall y :: y in xs <==> y == xs[0] || y in xs[1..];
      assert lt(xs[0], x);
      assert forall y :: y in xs[1..] ==> lt(xs[0], y);
      assert forall i :: 0 <= i < |rest| ==> rest[i] in rest && lt(xs[0], rest[i]);
      [xs[0]] + rest
  }

  /** The distinct values of `xs` in ascending order. */
  function SortedUnique<T(==,!new)>(xs: seq<T>, lt: (T, T) -> bool): (r: seq<T>)
    requires StrictTotalOrder(lt)
    ensures StrictlySorted(r, lt)
    ensures forall y :: y in r <==> y in xs
  {
    if |xs| == 0 then []
    else
      var init := xs[..|xs| - 1];
      assert forall y :: y in xs <==> y in init || y == xs[|xs| - 1];
      InsertSorted(SortedUnique(init, lt), xs[|xs| - 1], lt)
  }

  /** A strictly sorted sequence is determined by the values it holds. */
  lemma {:induction false} SortedIsCanonical<T(!new)>(a: seq<T>, b: seq<T>, lt: (T, T) -> bool)
    requires StrictTotalOrder(lt)
    requires StrictlySorted(a, lt) && StrictlySorted(b, lt)
    requires forall y :: y in a <==> y in b
    ensures a == b
  {
    if |b| > 0 {
      NonEmptyWithSameElements(b, a);
    }
    if |a| > 0 {
      NonEmptyWithSameElements(a, b);
      var a0, b0 := a[0], b[0];
      assert a0 in b && b0 in a;
      assert a0 == b0 || lt(b0, a0);
      assert a0 == b0 || lt(a0, b0);
      forall y
        ensures y in a[1..] <==> y in b[1..]
      {
        if y in a[1..] {
          assert y != a0;
          assert y in b;
        }
        if y in b[1..] {
          assert y != b0;
          assert y in a;
        }
      }
      SortedIsCanonical(a[1..], b[1..], lt);
      assert a == [a[0]] + a[1..] && b == [b[0]] + b[1..];
    }
  }

  lemma NonEmptyWithSameElements<T>(a: seq<T>, b: seq<T>)
    requires |a| > 0
    requires forall y :: y in a <==> y in b
    ensures |b| > 0
  {
    assert a[0] in b;
  }
}
