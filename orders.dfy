/** The `filter` and `reduce` steps the report code applies to lists of order entries. */
module Orders {
  import opened Types
  import opened Dates

  /** `o => o.date.startsWith(month)`: the entries of one month. */
  function InMonth(month: string): (r: OrderInput -> bool)
    ensures |month| == 7 ==> forall o :: r(o) <==> |o.date| >= 7 && MonthOf(o.date) == month
  {
    (o: OrderInput) => StartsWith(o.date, month)
  }

  /** `o => !o.date.startsWith(month)`: the entries outside one month. */
  function OutsideMonth(month: string): (r: OrderInput -> bool)
    ensures forall o :: r(o) <==> !InMonth(month)(o)
  {
    (o: OrderInput) => !StartsWith(o.date, month)
  }

  /** `s.filter(keep)`: the entries that satisfy `keep`, in their original order. */
  function Filter(s: seq<OrderInput>, keep: OrderInput -> bool): (r: seq<OrderInput>)
    ensures |r| <= |s|
    ensures forall o :: o in r <==> o in s && keep(o)
  {
    if s == [] then []
    else (if keep(s[0]) then [s[0]] else []) + Filter(s[1..], keep)
  }

  /** `s.reduce((sum, o) => sum + o.orders_count, 0)`. */
  function TotalOrders(s: seq<OrderInput>): nat {
    if s == [] then 0 else s[0].ordersCount + TotalOrders(s[1..])
  }

  /** The sum is at least every entry's count, and zero exactly when every count is. */
  lemma {:induction false} TotalOrdersBounds(s: seq<OrderInput>)
    ensures forall i :: 0 <= i < |s| ==> s[i].ordersCount <= TotalOrders(s)
    ensures TotalOrders(s) == 0 <==> forall i :: 0 <= i < |s| ==> s[i].ordersCount == 0
  {
    if s != [] {
      TotalOrdersBounds(s[1..]);
      assert forall i :: 0 < i < |s| ==> s[i] == s[1..][i - 1];
    }
  }

  /** The orders counted by the entries that satisfy `keep`. */
  function SumWhere(s: seq<OrderInput>, keep: OrderInput -> bool): nat {
    TotalOrders(Filter(s, keep))
  }

  /** Filtering distributes over concatenation: the relative order of the kept entries is
      that of the input. */
  lemma {:induction false} FilterConcat(a: seq<OrderInput>, b: seq<OrderInput>, keep: OrderInput -> bool)
    ensures Filter(a + b, keep) == Filter(a, keep) + Filter(b, keep)
  {
    if a == [] {
      assert a + b == b;
    } else {
      assert (a + b)[0] == a[0];
      assert (a + b)[1..] == a[1..] + b;
      FilterConcat(a[1..], b, keep);
    }
  }

  lemma {:induction false} TotalConcat(a: seq<OrderInput>, b: seq<OrderInput>)
    ensures TotalOrders(a + b) == TotalOrders(a) + TotalOrders(b)
  {
    if a == [] {
      assert a + b == b;
    } else {
      assert (a + b)[0] == a[0];
      assert (a + b)[1..] == a[1..] + b;
      TotalConcat(a[1..], b);
    }
  }

  /** Summing over a concatenation adds the two sums. */
  lemma SumWhereConcat(a: seq<OrderInput>, b: seq<OrderInput>, keep: OrderInput -> bool)
    ensures SumWhere(a + b, keep) == SumWhere(a, keep) + SumWhere(b, keep)
  {
    FilterConcat(a, b, keep);
    TotalConcat(Filter(a, keep), Filter(b, keep));
  }

  /** Appending one entry adds its count exactly when it is kept. */
  lemma SumWhereSnoc(s: seq<OrderInput>, o: OrderInput, keep: OrderInput -> bool)
    ensures SumWhere(s + [o], keep) == SumWhere(s, keep) + (if keep(o) then o.ordersCount else 0)
  {
    SumWhereConcat(s, [o], keep);
    assert [o][1..] == [];
    assert Filter([o][1..], keep) == [];
    assert Filter([o], keep) == if keep(o) then [o] else [];
    assert TotalOrders([o]) == o.ordersCount;
  }

  /** A sum over entries does not depend on their order. */
  lemma {:induction false} SumWherePermutation(a: seq<OrderInput>, b: seq<OrderInput>, keep: OrderInput -> bool)
    requires multiset(a) == multiset(b)
    ensures SumWhere(a, keep) == SumWhere(b, keep)
    decreases |a|
  {
    if a == [] {
      assert |b| == |multiset(b)| == 0;
    } else {
      var x := a[0];
      assert x in multiset(b);
      var j :| 0 <= j < |b| && b[j] == x;
      var rest := b[..j] + b[j + 1..];
      assert b == b[..j] + [x] + b[j + 1..];
      assert multiset(b) == multiset(b[..j]) + multiset{x} + multiset(b[j + 1..]);
      assert a == [x] + a[1..];
      assert multiset(a) == multiset{x} + multiset(a[1..]);
      assert multiset(rest) == multiset(b[..j]) + multiset(b[j + 1..]);
      assert multiset(a[1..]) == multiset(a) - multiset{x};
      assert multiset(rest) == multiset(b) - multiset{x};
      SumWherePermutation(a[1..], rest, keep);
      SumWhereConcat([x], a[1..], keep);
      SumWhereConcat(b[..j] + [x], b[j + 1..], keep);
      SumWhereConcat(b[..j], [x], keep);
      SumWhereConcat(b[..j], b[j + 1..], keep);
    }
  }

  /** Two disjoint selections inside a third never count more orders than the third. */
  lemma {:induction false} SumWhereDisjointWithin(s: seq<OrderInput>, a: OrderInput -> bool, b: OrderInput -> bool, c: OrderInput -> bool)
    requires forall o :: a(o) ==> c(o)
    requires forall o :: b(o) ==> c(o)
    requires forall o :: !(a(o) && b(o))
    ensures SumWhere(s, a) + SumWhere(s, b) <= SumWhere(s, c)
  {
    if s != [] {
      SumWhereDisjointWithin(s[1..], a, b, c);
      assert s == [s[0]] + s[1..];
      SumWhereConcat([s[0]], s[1..], a);
      SumWhereConcat([s[0]], s[1..], b);
      SumWhereConcat([s[0]], s[1..], c);
    }
  }

  /** Filtering twice keeps what both filters keep. */
  lemma {:induction false} FilterFilter(s: seq<OrderInput>, outer: OrderInput -> bool, inner: OrderInput -> bool,
                                        both: OrderInput -> bool)
    requires forall o :: both(o) <==> outer(o) && inner(o)
    ensures Filter(Filter(s, outer), inner) == Filter(s, both)
  {
    if s != [] {
      FilterFilter(s[1..], outer, inner, both);
      FilterConcat(if outer(s[0]) then [s[0]] else [], Filter(s[1..], outer), inner);
    }
  }

  /** A filter that keeps none of the entries returns the empty list. */
  lemma {:induction false} FilterNoneKept(s: seq<OrderInput>, keep: OrderInput -> bool)
    requires forall o :: o in s ==> !keep(o)
    ensures Filter(s, keep) == []
  {
    if s != [] {
      assert s[0] in s;
      FilterNoneKept(s[1..], keep);
    }
  }
}
