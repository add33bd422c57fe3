/**
 * A stable sort by a comparator, standing for JavaScript's `Array.prototype.sort` called with
 * a comparison function. The comparator is given as `le(a, b)`: "a may come before b", which
 * is `compare(a, b) <= 0` for the source's numeric comparators.
 */
module Sorting {
  import opened Seqs

  /** `le` is total and transitive, as every comparator the storefront sorts with is. */
  ghost predicate TotalPreorder<T(!new)>(le: (T, T) -> bool) {
    && (forall a, b :: le(a, b) || le(b, a))
    && (forall a, b, c :: le(a, b) && le(b, c) ==> le(a, c))
  }

  /** Every element may come before every later one. */
  ghost predicate SortedBy<T>(s: seq<T>, le: (T, T) -> bool) {
    forall i, j :: 0 <= i < j < |s| ==> le(s[i], s[j])
  }

  /** `x` placed before the first element it may precede. */
  function Insert<T>(x: T, s: seq<T>, le: (T, T) -> bool): (r: seq<T>)
    ensures |r| == |s| + 1
    ensures multiset(r) == multiset(s) + multiset{x}
  {
    if s == [] || le(x, s[0]) then [x] + s
    else
      assert s == [s[0]] + s[1..];
      [s[0]] + Insert(x, s[1..], le)
  }

  /** Insertion sort: `s` ordered by `le`, ties kept in their original order. */
  function Sort<T>(s: seq<T>, le: (T, T) -> bool): (r: seq<T>)
    ensures |r| == |s|
    ensures multiset(r) == multiset(s)
  {
    if s == [] then []
    else
      assert s == [s[0]] + s[1..];
      Insert(s[0], Sort(s[1..], le), le)
  }

  /** Inserting into a sorted sequence keeps it sorted. */
  lemma {:induction false} InsertSorted<T(!new)>(x: T, s: seq<T>, le: (T, T) -> bool)
    requires TotalPreorder(le) && SortedBy(s, le)
    ensures SortedBy(Insert(x, s, le), le)
  {
    if s == [] || le(x, s[0]) {
    } else {
      var t := Insert(x, s[1..], le);
      InsertSorted(x, s[1..], le);
      forall j | 0 <= j < |t| ensures le(s[0], t[j]) {
        assert t[j] in multiset(t);
        if t[j] != x {
          assert t[j] in multiset(s[1..]);
          var k :| 0 <= k < |s[1..]| && s[1..][k] == t[j];
          assert s[k + 1] == t[j];
        }
      }
    }
  }

  /** The sort's output is sorted. */
  lemma {:induction false} SortSorted<T(!new)>(s: seq<T>, le: (T, T) -> bool)
    requires TotalPreorder(le)
    ensures SortedBy(Sort(s, le), le)
  {
    if s != [] {
      SortSorted(s[1..], le);
      InsertSorted(s[0], Sort(s[1..], le), le);
    }
  }

  /** Sorting never changes what is sorted, only its order: an element is kept iff it was given. */
  lemma SortKeepsElements<T>(s: seq<T>, le: (T, T) -> bool, x: T)
    ensures x in Sort(s, le) <==> x in s
  {
    assert x in Sort(s, le) <==> x in multiset(Sort(s, le));
    assert x in s <==> x in multiset(s);
  }
  /** The elements tied with `x`: each may come before the other. */
  function TiedWith<T>(le: (T, T) -> bool, x: T): T -> bool {
    y => le(x, y) && le(y, x)
  }

  /** Filtering a sequence with a first element: that element if it is kept, then the rest filtered. */
  lemma FilterCons<T(!new)>(y: T, s: seq<T>, keep: T -> bool)
    ensures Filter([y] + s, keep) == (if keep(y) then [y] else []) + Filter(s, keep)
  {
    assert ([y] + s)[0] == y && ([y] + s)[1..] == s;
  }

  /** An element that may not come before `b` is not tied with anything `b` is tied with. */
  lemma NotTiedPast<T(!new)>(y: T, b: T, le: (T, T) -> bool, x: T)
    requires TotalPreorder(le) && !le(y, b)
    ensures !(TiedWith(le, x)(y) && TiedWith(le, x)(b))
  {
  }

  /** Two pieces of which one is empty may be put in either order. */
  lemma OneOfTwoEmpty<T>(a: seq<T>, b: seq<T>, rest: seq<T>)
    requires a == [] || b == []
    ensures a + (b + rest) == b + (a + rest)
  {
  }

  /**
   * Insertion passes no element tied with the one inserted: among the elements tied with
   * any `x`, the inserted one comes first.
   */
  lemma {:induction false} InsertKeepsTies<T(!new)>(y: T, s: seq<T>, le: (T, T) -> bool, x: T)
    requires TotalPreorder(le)
    ensures Filter(Insert(y, s, le), TiedWith(le, x))
      == (if TiedWith(le, x)(y) then [y] else []) + Filter(s, TiedWith(le, x))
  {
    var tied := TiedWith(le, x);
    if s == [] || le(y, s[0]) {
      FilterCons(y, s, tied);
    } else {
      var head := s[0];
      var tail := s[1..];
      assert s == [head] + tail;
      var rest := Insert(y, tail, le);
      assert Insert(y, s, le) == [head] + rest;
      var kh: seq<T> := if tied(head) then [head] else [];
      var ky: seq<T> := if tied(y) then [y] else [];
      calc {
        Filter(Insert(y, s, le), tied);
        { FilterCons(head, rest, tied); }
        kh + Filter(rest, tied);
        { InsertKeepsTies(y, tail, le, x); }
        kh + (ky + Filter(tail, tied));
        { NotTiedPast(y, head, le, x); OneOfTwoEmpty(kh, ky, Filter(tail, tied)); }
        ky + (kh + Filter(tail, tied));
        { FilterCons(head, tail, tied); }
        ky + Filter(s, tied);
      }
    }
  }

  /** The sort is stable: the elements tied with any `x` come out in the order they were given. */
  lemma {:induction false} SortStable<T(!new)>(s: seq<T>, le: (T, T) -> bool, x: T)
    requires TotalPreorder(le)
    ensures Filter(Sort(s, le), TiedWith(le, x)) == Filter(s, TiedWith(le, x))
  {
    if s != [] {
      SortStable(s[1..], le, x);
      InsertKeepsTies(s[0], Sort(s[1..], le), le, x);
      assert ([s[0]] + s[1..])[1..] == s[1..];
    }
  }

  /** No two elements share a key. */
  ghost predicate DistinctKeys<T, K>(s: seq<T>, key: T -> K) {
    forall i, j :: 0 <= i < j < |s| ==> key(s[i]) != key(s[j])
  }

  /** Inserting an element whose key is new keeps the keys distinct. */
  lemma {:induction false} InsertDistinct<T, K>(x: T, s: seq<T>, le: (T, T) -> bool, key: T -> K)
    requires DistinctKeys(s, key)
    requires forall y :: y in s ==> key(y) != key(x)
    ensures DistinctKeys(Insert(x, s, le), key)
  {
    if s == [] || le(x, s[0]) {
      var r := [x] + s;
      forall i, j | 0 <= i < j < |r| ensures key(r[i]) != key(r[j]) {
        if i > 0 {
          assert r[i] == s[i - 1] && r[j] == s[j - 1];
        } else {
          assert r[j] in s;
        }
      }
    } else {
      var t := Insert(x, s[1..], le);
      InsertDistinct(x, s[1..], le, key);
      var r := [s[0]] + t;
      forall j | 0 <= j < |t| ensures key(s[0]) != key(t[j]) {
        assert t[j] in multiset(t);
        if t[j] != x {
          assert t[j] in multiset(s[1..]);
          var k :| 0 <= k < |s[1..]| && s[1..][k] == t[j];
          assert s[k + 1] == t[j];
        }
      }
      forall i, j | 0 <= i < j < |r| ensures key(r[i]) != key(r[j]) {
        if i > 0 {
          assert r[i] == t[i - 1] && r[j] == t[j - 1];
        } else {
          assert r[j] == t[j - 1];
        }
      }
    }
  }

  /** Sorting keeps distinct keys distinct. */
  lemma {:induction false} SortDistinct<T, K>(s: seq<T>, le: (T, T) -> bool, key: T -> K)
    requires DistinctKeys(s, key)
    ensures DistinctKeys(Sort(s, le), key)
  {
    if s != [] {
      var tail := s[1..];
      assert DistinctKeys(tail, key) by {
        forall i, j | 0 <= i < j < |tail| ensures key(tail[i]) != key(tail[j]) {
          assert tail[i] == s[i + 1] && tail[j] == s[j + 1];
        }
      }
      SortDistinct(tail, le, key);
      forall y | y in Sort(tail, le) ensures key(y) != key(s[0]) {
        SortKeepsElements(tail, le, y);
        var k :| 0 <= k < |tail| && tail[k] == y;
        assert s[k + 1] == y;
      }
      InsertDistinct(s[0], Sort(tail, le), le, key);
    }
  }
}
