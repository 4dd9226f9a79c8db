/** A stable insertion sort by a caller-supplied order, standing for
    `Array.prototype.sort` and SQL `ORDER BY`. */
module Sorting {

  predicate SortedBy<T>(s: seq<T>, leq: (T, T) -> bool) {
    forall i, j :: 0 <= i < j < |s| ==> leq(s[i], s[j])
  }

  predicate NoDups<T(==)>(s: seq<T>) {
    forall i, j :: 0 <= i < j < |s| ==> s[i] != s[j]
  }

  ghost predicate TotalPreorder<T(!new)>(leq: (T, T) -> bool) {
    && (forall a, b :: leq(a, b) || leq(b, a))
    && (forall a, b, c :: leq(a, b) && leq(b, c) ==> leq(a, c))
  }

  function Insert<T>(x: T, s: seq<T>, leq: (T, T) -> bool): (r: seq<T>)
    ensures multiset(r) == multiset(s) + multiset{x}
  {
    if s == [] || leq(x, s[0]) then [x] + s
    else
      assert s == [s[0]] + s[1..];
      [s[0]] + Insert(x, s[1..], leq)
  }

  function Sort<T>(s: seq<T>, leq: (T, T) -> bool): (r: seq<T>)
    ensures multiset(r) == multiset(s)
  {
    if s == [] then []
    else
      assert s == [s[0]] + s[1..];
      Insert(s[0], Sort(s[1..], leq), leq)
  }

  lemma {:induction false} InsertSorted<T(!new)>(x: T, s: seq<T>, leq: (T, T) -> bool)
    requires TotalPreorder(leq) && SortedBy(s, leq)
    ensures SortedBy(Insert(x, s, leq), leq)
  {
    if s != [] && !leq(x, s[0]) {
      InsertSorted(x, s[1..], leq);
      var r := Insert(x, s[1..], leq);
      assert multiset(r) == multiset(s[1..]) + multiset{x};
      forall j | 0 <= j < |r| ensures leq(s[0], r[j]) {
        assert r[j] in multiset(r);
        if r[j] != x {
          assert r[j] in multiset(s[1..]);
          var k :| 0 <= k < |s[1..]| && s[1..][k] == r[j];
          assert s[k + 1] == r[j];
        }
      }
    }
  }

  lemma {:induction false} SortSorted<T(!new)>(s: seq<T>, leq: (T, T) -> bool)
    requires TotalPreorder(leq)
    ensures SortedBy(Sort(s, leq), leq)
  {
    if s != [] {
      SortSorted(s[1..], leq);
      InsertSorted(s[0], Sort(s[1..], leq), leq);
    }
  }

  /** When every two elements are equivalent the stable sort keeps the
      input order. */
  lemma {:induction false} SortAllEquivalent<T>(s: seq<T>, leq: (T, T) -> bool)
    requires forall i, j :: 0 <= i < |s| && 0 <= j < |s| ==> leq(s[i], s[j])
    ensures Sort(s, leq) == s
  {
    if s != [] {
      var t := s[1..];
      forall i, j | 0 <= i < |t| && 0 <= j < |t| ensures leq(t[i], t[j]) {
        assert t[i] == s[i + 1] && t[j] == s[j + 1];
      }
      SortAllEquivalent(t, leq);
      if t != [] {
        assert leq(s[0], s[1]);
      }
      assert s == [s[0]] + t;
    }
  }

  /** Two orders that agree on the elements being sorted sort them alike. */
  lemma {:induction false} InsertAgreeing<T>(x: T, s: seq<T>, l1: (T, T) -> bool, l2: (T, T) -> bool)
    requires forall y :: y in s ==> l1(x, y) == l2(x, y)
    ensures Insert(x, s, l1) == Insert(x, s, l2)
  {
    if s != [] {
      assert s[0] in s;
      forall y | y in s[1..] ensures l1(x, y) == l2(x, y) {
        assert y in s;
      }
      InsertAgreeing(x, s[1..], l1, l2);
    }
  }

  lemma {:induction false} SortAgreeing<T>(s: seq<T>, l1: (T, T) -> bool, l2: (T, T) -> bool)
    requires forall a, b :: a in s && b in s ==> l1(a, b) == l2(a, b)
    ensures Sort(s, l1) == Sort(s, l2)
  {
    if s != [] {
      forall a, b | a in s[1..] && b in s[1..] ensures l1(a, b) == l2(a, b) {
        assert a in s && b in s;
      }
      SortAgreeing(s[1..], l1, l2);
      var r := Sort(s[1..], l1);
      forall y | y in r ensures l1(s[0], y) == l2(s[0], y) {
        assert y in multiset(r);
        assert y in multiset(s[1..]);
        assert y in s[1..];
        assert y in s;
        assert s[0] in s;
      }
      InsertAgreeing(s[0], r, l1, l2);
    }
  }

  lemma {:induction false} NoDupsCount<T>(s: seq<T>, x: T)
    requires NoDups(s)
    ensures multiset(s)[x] <= 1
  {
    if s != [] {
      assert s == [s[0]] + s[1..];
      NoDupsCount(s[1..], x);
      if s[0] == x {
        assert x !in s[1..];
      }
    }
  }

  /** A permutation of a list without duplicates has none either. */
  lemma {:induction false} PermutationNoDups<T>(s: seq<T>, r: seq<T>)
    requires NoDups(s) && multiset(r) == multiset(s)
    ensures NoDups(r)
  {
    forall i, j | 0 <= i < j < |r| ensures r[i] != r[j] {
      if r[i] == r[j] {
        assert r == r[..i] + [r[i]] + r[i + 1..j] + [r[j]] + r[j + 1..];
        assert multiset(r)[r[i]] >= 2;
        NoDupsCount(s, r[i]);
      }
    }
  }

  /** A list without duplicates has as many distinct elements as entries. */
  lemma {:induction false} NoDupsSetSize<T>(s: seq<T>)
    requires NoDups(s)
    ensures |set x | x in s| == |s|
  {
    if s != [] {
      var t := s[1..];
      NoDupsSetSize(t);
      assert (set x | x in s) == (set x | x in t) + {s[0]};
      assert s[0] !in (set x | x in t);
    }
  }

  /** The distinct elements of a list, each at its first occurrence, as SQL
      `DISTINCT` or `GROUP BY` yields them. */
  function Distinct<T(==,!new)>(s: seq<T>): (r: seq<T>)
    ensures NoDups(r)
    ensures forall x :: x in r <==> x in s
  {
    if s == [] then []
    else
      var init := Distinct(s[..|s| - 1]);
      var last := s[|s| - 1];
      assert forall x :: x in s <==> x in s[..|s| - 1] || x == last by {
        assert s == s[..|s| - 1] + [last];
      }
      if last in init then init else init + [last]
  }
}
