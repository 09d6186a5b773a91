/** Stable sorting by a real key, as Python's sorted() does, with the facts the
    median and the telemetry flush need. */
module Sorting {

  ghost predicate SortedBy<T>(s: seq<T>, key: T -> real) {
    forall i, j :: 0 <= i < j < |s| ==> key(s[i]) <= key(s[j])
  }

  /** Insert x in front of the first element with a key not below its own. */
  function Insert<T>(x: T, s: seq<T>, key: T -> real): (r: seq<T>)
    ensures |r| == |s| + 1
  {
    if s == [] then [x]
    else if key(x) <= key(s[0]) then [x] + s
    else [s[0]] + Insert(x, s[1..], key)
  }

  function Sort<T>(s: seq<T>, key: T -> real): (r: seq<T>)
    ensures |r| == |s|
  {
    if s == [] then [] else Insert(s[0], Sort(s[1..], key), key)
  }

  lemma {:induction false} InsertKeepsElements<T>(x: T, s: seq<T>, key: T -> real)
    ensures multiset(Insert(x, s, key)) == multiset(s) + multiset{x}
  {
    if s != [] {
      assert s == [s[0]] + s[1..];
      InsertKeepsElements(x, s[1..], key);
    }
  }

  lemma {:induction false} InsertKeepsOrder<T>(x: T, s: seq<T>, key: T -> real)
    requires SortedBy(s, key)
    ensures SortedBy(Insert(x, s, key), key)
  {
    if s != [] && !(key(x) <= key(s[0])) {
      var t := Insert(x, s[1..], key);
      InsertKeepsOrder(x, s[1..], key);
      InsertKeepsElements(x, s[1..], key);
      forall j | 0 <= j < |t| ensures key(s[0]) <= key(t[j]) {
        assert t[j] in multiset(t);
        assert t[j] in s[1..] || t[j] == x;
      }
    }
  }

  /** Sorting keeps the elements and orders them. */
  lemma {:induction false} SortIsSorting<T>(s: seq<T>, key: T -> real)
    ensures multiset(Sort(s, key)) == multiset(s)
    ensures SortedBy(Sort(s, key), key)
  {
    if s != [] {
      assert s == [s[0]] + s[1..];
      SortIsSorting(s[1..], key);
      InsertKeepsElements(s[0], Sort(s[1..], key), key);
      InsertKeepsOrder(s[0], Sort(s[1..], key), key);
    }
  }

  /** Sorting keeps an already ordered sequence as it is. */
  lemma {:induction false} SortOfSorted<T>(s: seq<T>, key: T -> real)
    requires SortedBy(s, key)
    ensures Sort(s, key) == s
  {
    if s != [] {
      SortOfSorted(s[1..], key);
      assert s == [s[0]] + s[1..];
      if |s| > 1 {
        assert s[1..][0] == s[1];
      }
    }
  }

  function Identity(x: real): real { x }

  lemma FirstIsLeast(a: seq<real>, x: real)
    requires SortedBy(a, Identity) && x in multiset(a)
    ensures a != [] && a[0] <= x
  {
    var j :| 0 <= j < |a| && a[j] == x;
    assert j == 0 || Identity(a[0]) <= Identity(a[j]);
  }

  lemma SortedTail(a: seq<real>)
    requires a != [] && SortedBy(a, Identity)
    ensures SortedBy(a[1..], Identity)
    ensures multiset(a[1..]) == multiset(a) - multiset{a[0]}
    ensures a == [a[0]] + a[1..]
  {
    assert a == [a[0]] + a[1..];
  }

  /** Two ordered sequences of numbers with the same elements are equal. */
  lemma {:induction false} SortedUnique(a: seq<real>, b: seq<real>)
    requires SortedBy(a, Identity) && SortedBy(b, Identity)
    requires multiset(a) == multiset(b)
    ensures a == b
  {
    hide SortedBy, Identity;
    assert b != [] ==> b[0] in multiset(b);
    if a != [] {
      assert a[0] in multiset(a);
      FirstIsLeast(b, a[0]);
      FirstIsLeast(a, b[0]);
      SortedTail(a);
      SortedTail(b);
      assert a[0] == b[0];
      assert multiset(a[1..]) == multiset(b[1..]);
      SortedUnique(a[1..], b[1..]);
    }
  }

  /** statistics.median. */
  function Median(s: seq<real>): real
    requires s != []
  {
    var r := Sort(s, Identity);
    if |r| % 2 == 1 then r[|r| / 2] else (r[|r| / 2 - 1] + r[|r| / 2]) / 2.0
  }

  /** The median depends on the elements only, not on their order. */
  lemma MedianOfPermutation(a: seq<real>, b: seq<real>)
    requires a != [] && multiset(a) == multiset(b)
    ensures b != [] && Median(a) == Median(b)
  {
    assert |multiset(a)| == |multiset(b)|;
    SortIsSorting(a, Identity);
    SortIsSorting(b, Identity);
    SortedUnique(Sort(a, Identity), Sort(b, Identity));
  }

  /** The median of some numbers is the middle one of them in order, or half the sum
      of the two middle ones. */
  lemma MedianExactly(s: seq<real>, ordered: seq<real>)
    requires s != [] && multiset(ordered) == multiset(s)
    requires forall i, j :: 0 <= i < j < |ordered| ==> ordered[i] <= ordered[j]
    ensures var n := |s|;
            && |ordered| == n
            && (n % 2 == 1 ==> Median(s) == ordered[n / 2])
            && (n % 2 == 0 ==> 2.0 * Median(s) == ordered[n / 2 - 1] + ordered[n / 2])
  {
    hide Sort;
    assert |multiset(ordered)| == |multiset(s)|;
    SortIsSorting(s, Identity);
    SortedUnique(Sort(s, Identity), ordered);
  }

  /** The median lies between any bounds of the elements. */
  lemma MedianBetween(s: seq<real>, lo: real, hi: real)
    requires s != []
    requires forall x :: x in s ==> lo <= x <= hi
    ensures lo <= Median(s) <= hi
  {
    var r := Sort(s, Identity);
    SortIsSorting(s, Identity);
    forall i | 0 <= i < |r| ensures lo <= r[i] <= hi {
      assert r[i] in multiset(r);
      assert r[i] in s;
    }
  }
}
