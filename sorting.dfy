/**
 * The library sort the app calls twice (`sorted(by:)` on the settings list
 * and on the enumerated zman times), modelled as a stable insertion sort by
 * a key, with the order the two comparators induce: an integer rank first,
 * then a number in which "missing" sorts after every real value.
 */
module Sorting {

  /** A number, or the +infinity that the source substitutes for a missing one. */
  datatype Bound = Finite(x: real) | Infinite

  datatype SortKey = SortKey(major: int, minor: Bound)

  predicate BoundLess(a: Bound, b: Bound) {
    match (a, b)
    case (Finite(x), Finite(y)) => x < y
    case (Finite(_), Infinite) => true
    case _ => false
  }

  /** The comparator's "is in increasing order": rank first, then the number. */
  predicate KeyLess(a: SortKey, b: SortKey) {
    a.major < b.major || (a.major == b.major && BoundLess(a.minor, b.minor))
  }

  /** No element is strictly smaller than one before it. */
  predicate SortedBy<T>(s: seq<T>, key: T -> SortKey) {
    forall i, j :: 0 <= i < j < |s| ==> !KeyLess(key(s[j]), key(s[i]))
  }

  /** Inserts `x` after every element whose key is not greater than its own. */
  function Insert<T>(x: T, s: seq<T>, key: T -> SortKey): (r: seq<T>)
    ensures |r| == |s| + 1
  {
    if s == [] || KeyLess(key(x), key(s[0])) then [x] + s
    else [s[0]] + Insert(x, s[1..], key)
  }

  lemma {:induction false} InsertCorrect<T>(x: T, s: seq<T>, key: T -> SortKey)
    requires SortedBy(s, key)
    ensures multiset(Insert(x, s, key)) == multiset(s) + multiset{x}
    ensures SortedBy(Insert(x, s, key), key)
  {
    InsertPermutes(x, s, key);
    if s == [] || KeyLess(key(x), key(s[0])) {
      InsertFrontSorted(x, s, key);
    } else {
      InsertCorrect(x, s[1..], key);
      InsertAfterHeadSorted(x, s, key);
    }
  }

  /** Inserting adds `x` and keeps every element. */
  lemma {:induction false} InsertPermutes<T>(x: T, s: seq<T>, key: T -> SortKey)
    ensures multiset(Insert(x, s, key)) == multiset(s) + multiset{x}
  {
    if !(s == [] || KeyLess(key(x), key(s[0]))) {
      InsertPermutes(x, s[1..], key);
      assert s == [s[0]] + s[1..];
    }
  }

  /** `x` placed before a sorted list it does not exceed leaves it sorted. */
  lemma InsertFrontSorted<T>(x: T, s: seq<T>, key: T -> SortKey)
    requires SortedBy(s, key)
    requires s == [] || KeyLess(key(x), key(s[0]))
    ensures SortedBy([x] + s, key)
  {
    var r := [x] + s;
    forall i, j | 0 <= i < j < |r|
      ensures !KeyLess(key(r[j]), key(r[i]))
    {
      if i == 0 && j > 1 {
        assert !KeyLess(key(s[j - 1]), key(s[0]));
      }
    }
  }

  /** The head of a sorted list stays first when `x` goes into its tail. */
  lemma InsertAfterHeadSorted<T>(x: T, s: seq<T>, key: T -> SortKey)
    requires SortedBy(s, key) && s != [] && !KeyLess(key(x), key(s[0]))
    requires multiset(Insert(x, s[1..], key)) == multiset(s[1..]) + multiset{x}
    requires SortedBy(Insert(x, s[1..], key), key)
    ensures SortedBy([s[0]] + Insert(x, s[1..], key), key)
  {
    var rest := Insert(x, s[1..], key);
    var r := [s[0]] + rest;
    forall i, j | 0 <= i < j < |r|
      ensures !KeyLess(key(r[j]), key(r[i]))
    {
      if i == 0 {
        var y := rest[j - 1];
        assert y in multiset(rest);
        if y != x {
          assert y in multiset(s[1..]);
          var m :| 0 <= m < |s[1..]| && s[1..][m] == y;
          assert s[m + 1] == y;
        }
      }
    }
  }

  /** A stable sort: each element is inserted after the equal ones before it. */
  function Sort<T>(s: seq<T>, key: T -> SortKey): (r: seq<T>)
    ensures |r| == |s|
    ensures multiset(r) == multiset(s)
    ensures SortedBy(r, key)
  {
    if s == [] then []
    else
      var init := Sort(s[..|s| - 1], key);
      assert s == s[..|s| - 1] + [s[|s| - 1]];
      InsertCorrect(s[|s| - 1], init, key);
      Insert(s[|s| - 1], init, key)
  }

  function Map<T, U>(s: seq<T>, f: T -> U): (r: seq<U>)
    ensures |r| == |s|
    ensures forall i :: 0 <= i < |s| ==> r[i] == f(s[i])
  {
    seq(|s|, i requires 0 <= i < |s| => f(s[i]))
  }

  /** Sorting rearranges any projection of the elements the same way. */
  lemma {:induction false} SortPermutesProjection<T, U>(s: seq<T>, key: T -> SortKey, f: T -> U)
    ensures multiset(Map(Sort(s, key), f)) == multiset(Map(s, f))
  {
    if s != [] {
      var init := s[..|s| - 1];
      SortPermutesProjection(init, key, f);
      InsertPermutesProjection(s[|s| - 1], Sort(init, key), key, f);
      assert Map(s, f) == Map(init, f) + [f(s[|s| - 1])];
    }
  }

  lemma {:induction false} InsertPermutesProjection<T, U>(x: T, s: seq<T>, key: T -> SortKey, f: T -> U)
    ensures multiset(Map(Insert(x, s, key), f)) == multiset(Map(s, f)) + multiset{f(x)}
  {
    if s == [] || KeyLess(key(x), key(s[0])) {
      assert Map([x] + s, f) == [f(x)] + Map(s, f);
    } else {
      InsertPermutesProjection(x, s[1..], key, f);
      assert Map(Insert(x, s, key), f) == [f(s[0])] + Map(Insert(x, s[1..], key), f);
      assert Map(s, f) == [f(s[0])] + Map(s[1..], f);
    }
  }
}
