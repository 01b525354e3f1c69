/** The copy `[...orders].sort(...)` that orders entries by their date before they are applied.
    The comparator subtracts `new Date(..).getTime()` values. The order among entries of the
    same day is not stated here: the report does not depend on the entries' order. An entry
    whose date is not a valid time value makes the comparator answer NaN, and where such
    entries land is left to the engine; here they are placed before every dated entry. */
module Sorting {
  import opened Types
  import opened Dates

  /** The position an entry's date gives it in the sort. */
  function SortKey(o: OrderInput): (k: int)
    ensures k >= -1
    ensures k == -1 <==> !IsWellFormed(o.date)
  {
    match DateKey(o.date)
    case Some(k) => k
    case None => -1
  }

  /** The entries are in ascending order of `key`. */
  predicate SortedBy(s: seq<OrderInput>, key: OrderInput -> int) {
    forall i, j :: 0 <= i < j < |s| ==> key(s[i]) <= key(s[j])
  }

  /** Places `x` before the first entry whose key is not smaller than its own. */
  function Insert(x: OrderInput, s: seq<OrderInput>, key: OrderInput -> int): seq<OrderInput> {
    if s == [] then [x]
    else if key(x) <= key(s[0]) then [x] + s
    else [s[0]] + Insert(x, s[1..], key)
  }

  /** Inserting adds exactly one occurrence of `x`. */
  lemma {:induction false} InsertPermutes(x: OrderInput, s: seq<OrderInput>, key: OrderInput -> int)
    ensures multiset(Insert(x, s, key)) == multiset(s) + multiset{x}
  {
    if s != [] && key(s[0]) < key(x) {
      InsertPermutes(x, s[1..], key);
      assert s == [s[0]] + s[1..];
    }
  }

  /** The head of a sorted sequence has the least key. */
  lemma HeadIsLeast(s: seq<OrderInput>, key: OrderInput -> int)
    requires SortedBy(s, key) && s != []
    ensures forall e :: e in s ==> key(s[0]) <= key(e)
  {
    forall e | e in s ensures key(s[0]) <= key(e) {
      var k :| 0 <= k < |s| && s[k] == e;
    }
  }

  lemma TailSorted(s: seq<OrderInput>, key: OrderInput -> int)
    requires SortedBy(s, key) && s != []
    ensures SortedBy(s[1..], key)
  {
    var tail := s[1..];
    forall i, j | 0 <= i < j < |tail| ensures key(tail[i]) <= key(tail[j]) {
      assert tail[i] == s[i + 1] && tail[j] == s[j + 1];
    }
  }

  /** An entry with a key no larger than every key of a sorted sequence can go in front. */
  lemma ConsSorted(a: OrderInput, s: seq<OrderInput>, key: OrderInput -> int)
    requires SortedBy(s, key)
    requires forall e :: e in s ==> key(a) <= key(e)
    ensures SortedBy([a] + s, key)
  {
    var r := [a] + s;
    forall i, j | 0 <= i < j < |r| ensures key(r[i]) <= key(r[j]) {
      assert r[j] == s[j - 1];
      if i > 0 {
        assert r[i] == s[i - 1];
      } else {
        assert r[j] in s;
      }
    }
  }

  /** A lower bound on the keys of `s` and of `x` bounds the keys after the insertion. */
  lemma InsertBounded(x: OrderInput, s: seq<OrderInput>, key: OrderInput -> int, bound: int)
    requires bound <= key(x)
    requires forall e :: e in s ==> bound <= key(e)
    ensures forall e :: e in Insert(x, s, key) ==> bound <= key(e)
  {
    InsertPermutes(x, s, key);
    forall e | e in Insert(x, s, key) ensures bound <= key(e) {
      assert e in multiset(Insert(x, s, key));
      assert e == x || e in multiset(s);
    }
  }

  /** Inserting into a sorted sequence keeps it sorted. */
  lemma {:induction false} InsertSorted(x: OrderInput, s: seq<OrderInput>, key: OrderInput -> int)
    requires SortedBy(s, key)
    ensures SortedBy(Insert(x, s, key), key)
  {
    if s == [] {
    } else if key(x) <= key(s[0]) {
      HeadIsLeast(s, key);
      ConsSorted(x, s, key);
    } else {
      TailSorted(s, key);
      HeadIsLeast(s, key);
      assert forall e :: e in s[1..] ==> e in s;
      InsertSorted(x, s[1..], key);
      InsertBounded(x, s[1..], key, key(s[0]));
      ConsSorted(s[0], Insert(x, s[1..], key), key);
    }
  }

  /** The multiset of a non-empty sequence is its head's and its tail's. */
  lemma MultisetHeadTail(s: seq<OrderInput>)
    requires s != []
    ensures multiset(s) == multiset(s[1..]) + multiset{s[0]}
  {
    assert s == [s[0]] + s[1..];
  }

  /** Insertion sort by `key`: a permutation of the input in ascending key order. */
  function SortBy(s: seq<OrderInput>, key: OrderInput -> int): (r: seq<OrderInput>)
    ensures SortedBy(r, key)
    ensures multiset(r) == multiset(s)
  {
    if s == [] then []
    else
      var sortedTail := SortBy(s[1..], key);
      InsertSorted(s[0], sortedTail, key);
      InsertPermutes(s[0], sortedTail, key);
      MultisetHeadTail(s);
      Insert(s[0], sortedTail, key)
  }

  /** A later calendar day has a larger sort key; an entry without a time value has the
      smallest key. */
  lemma SortKeyFollowsDates(a: OrderInput, b: OrderInput)
    ensures DateBefore(a.date, b.date) <==> 0 <= SortKey(a) < SortKey(b)
  {
  }

  /** The sorted copy the engine walks: a permutation of the input, ordered by date. */
  function SortByDate(s: seq<OrderInput>): (r: seq<OrderInput>)
    ensures forall i, j :: 0 <= i < j < |r| ==> SortKey(r[i]) <= SortKey(r[j])
    ensures forall i, j :: 0 <= i < j < |r| ==> !DateBefore(r[j].date, r[i].date)
    ensures multiset(r) == multiset(s)
  {
    var r := SortBy(s, SortKey);
    assert forall i, j :: 0 <= i < j < |r| ==> !DateBefore(r[j].date, r[i].date) by {
      forall i, j | 0 <= i < j < |r| ensures !DateBefore(r[j].date, r[i].date) {
        SortKeyFollowsDates(r[j], r[i]);
      }
    }
    r
  }
}
