/** A stable sort by a JavaScript-style comparator, as `Array.prototype.sort`
    performs it (stable since ECMAScript 2019). `ge(a, b)` holds when the
    comparator puts `a` no later than `b` (`compare(a, b) <= 0`). */
module Sorting {

  /** Any two elements are comparable. */
  ghost predicate Total<T(!new)>(ge: (T, T) -> bool)
  {
    forall a, b :: ge(a, b) || ge(b, a)
  }

  ghost predicate Transitive<T(!new)>(ge: (T, T) -> bool)
  {
    forall a, b, c :: ge(a, b) && ge(b, c) ==> ge(a, c)
  }

  /** Every element may stand before every later one. */
  predicate Sorted<T>(s: seq<T>, ge: (T, T) -> bool)
  {
    forall i, j :: 0 <= i < j < |s| ==> ge(s[i], s[j])
  }

  /** Puts `x` before the first element it may precede. */
  function Insert<T>(x: T, s: seq<T>, ge: (T, T) -> bool): (r: seq<T>)
    ensures multiset(r) == multiset(s) + multiset{x}
    ensures |r| == |s| + 1
  {
    if s == [] || ge(x, s[0]) then [x] + s
    else
      assert s == [s[0]] + s[1..];
      [s[0]] + Insert(x, s[1..], ge)
  }

  /** Insertion sort; earlier elements are inserted in front of equal later
      ones, so equal elements keep their order. */
  function SortBy<T>(s: seq<T>, ge: (T, T) -> bool): (r: seq<T>)
    ensures multiset(r) == multiset(s)
    ensures |r| == |s|
  {
    if s == [] then []
    else
      assert s == [s[0]] + s[1..];
      Insert(s[0], SortBy(s[1..], ge), ge)
  }

  lemma {:induction false} InsertSorted<T(!new)>(x: T, s: seq<T>, ge: (T, T) -> bool)
    requires Total(ge) && Transitive(ge)
    requires Sorted(s, ge)
    ensures Sorted(Insert(x, s, ge), ge)
  {
    if s == [] || ge(x, s[0]) {
      var r := [x] + s;
      forall i, j | 0 <= i < j < |r| ensures ge(r[i], r[j]) {
        if i == 0 {
          assert r[j] == s[j - 1];
          if j - 1 > 0 {
            assert ge(s[0], s[j - 1]);
          }
        } else {
          assert r[i] == s[i - 1] && r[j] == s[j - 1];
        }
      }
    } else {
      var tail := Insert(x, s[1..], ge);
      InsertSorted(x, s[1..], ge);
      var r := [s[0]] + tail;
      assert ge(s[0], x);
      forall i, j | 0 <= i < j < |r| ensures ge(r[i], r[j]) {
        if i == 0 {
          var y := r[j];
          assert y in multiset(tail);
          assert y in multiset(s[1..]) || y == x;
          if y != x {
            assert y in s[1..];
            var k :| 0 <= k < |s[1..]| && s[1..][k] == y;
            assert s[k + 1] == y;
          }
        } else {
          assert r[i] == tail[i - 1] && r[j] == tail[j - 1];
        }
      }
    }
  }

  /** With a total and transitive comparator the result is sorted. */
  lemma {:induction false} SortBySorted<T(!new)>(s: seq<T>, ge: (T, T) -> bool)
    requires Total(ge) && Transitive(ge)
    ensures Sorted(SortBy(s, ge), ge)
  {
    if s != [] {
      SortBySorted(s[1..], ge);
      InsertSorted(s[0], SortBy(s[1..], ge), ge);
    }
  }

  /** The elements of `s` the comparator cannot tell from `e`, in order. */
  function Equivalents<T>(s: seq<T>, e: T, ge: (T, T) -> bool): (r: seq<T>)
    ensures |r| <= |s|
  {
    if s == [] then []
    else (if ge(s[0], e) && ge(e, s[0]) then [s[0]] else []) + Equivalents(s[1..], e, ge)
  }

  /** Inserting `x` adds it in front of the elements equivalent to it. */
  lemma {:induction false} InsertEquivalents<T(!new)>(x: T, s: seq<T>, e: T, ge: (T, T) -> bool)
    requires Total(ge) && Transitive(ge)
    ensures Equivalents(Insert(x, s, ge), e, ge)
         == (if ge(x, e) && ge(e, x) then [x] else []) + Equivalents(s, e, ge)
  {
    if s == [] || ge(x, s[0]) {
      assert ([x] + s)[1..] == s;
    } else {
      InsertEquivalents(x, s[1..], e, ge);
      var r := [s[0]] + Insert(x, s[1..], ge);
      assert r[1..] == Insert(x, s[1..], ge);
      if ge(x, e) && ge(e, x) {
        assert !(ge(s[0], e) && ge(e, s[0]));
      }
    }
  }

  /** The sort is stable: elements the comparator cannot tell apart keep
      their relative order. */
  lemma {:induction false} SortByStable<T(!new)>(s: seq<T>, e: T, ge: (T, T) -> bool)
    requires Total(ge) && Transitive(ge)
    ensures Equivalents(SortBy(s, ge), e, ge) == Equivalents(s, e, ge)
  {
    if s != [] {
      SortByStable(s[1..], e, ge);
      InsertEquivalents(s[0], SortBy(s[1..], ge), e, ge);
    }
  }
}
