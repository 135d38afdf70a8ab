/**
 * `sorted(by:)` with a comparator of the form `key($0) < key($1)`: a stable
 * insertion sort by a real-valued key, ascending. A descending sort
 * (`key($0) > key($1)`) is the ascending sort by the negated key.
 */
module Sorting {

  /** Keys never decrease along `s`. */
  ghost predicate SortedBy<T>(s: seq<T>, key: T -> real) {
    forall i, j :: 0 <= i < j < |s| ==> key(s[i]) <= key(s[j])
  }

  /** Every key in `s` is at most `b`. */
  ghost predicate KeysAtMost<T>(s: seq<T>, key: T -> real, b: real) {
    forall i :: 0 <= i < |s| ==> key(s[i]) <= b
  }

  /** Inserts `x` after every element whose key is at most `key(x)`. */
  function Insert<T(==)>(x: T, s: seq<T>, key: T -> real): (r: seq<T>)
    ensures |r| == |s| + 1
    ensures multiset(r) == multiset(s) + multiset{x}
  {
    if |s| == 0 then [x]
    else if key(s[|s| - 1]) <= key(x) then s + [x]
    else
      assert s == s[..|s| - 1] + [s[|s| - 1]];
      Insert(x, s[..|s| - 1], key) + [s[|s| - 1]]
  }

  /** Insertion keeps a bound on the keys. */
  lemma {:induction false} InsertKeysAtMost<T>(x: T, s: seq<T>, key: T -> real, b: real)
    requires KeysAtMost(s, key, b) && key(x) <= b
    ensures KeysAtMost(Insert(x, s, key), key, b)
  {
    if |s| > 0 && key(s[|s| - 1]) > key(x) {
      InsertKeysAtMost(x, s[..|s| - 1], key, b);
    }
  }

  /** Insertion into a sorted sequence gives a sorted sequence. */
  lemma {:induction false} InsertSorted<T>(x: T, s: seq<T>, key: T -> real)
    requires SortedBy(s, key)
    ensures SortedBy(Insert(x, s, key), key)
  {
    if |s| > 0 && key(s[|s| - 1]) > key(x) {
      var init, last := s[..|s| - 1], s[|s| - 1];
      InsertSorted(x, init, key);
      InsertKeysAtMost(x, init, key, key(last));
    }
  }

  /** `sequence.sorted { key($0) < key($1) }`: sorted by the key and a permutation of the input. */
  function SortBy<T(==)>(s: seq<T>, key: T -> real): (r: seq<T>)
    ensures |r| == |s|
    ensures multiset(r) == multiset(s)
    ensures SortedBy(r, key)
  {
    if |s| == 0 then []
    else
      assert s == s[..|s| - 1] + [s[|s| - 1]];
      InsertSorted(s[|s| - 1], SortBy(s[..|s| - 1], key), key);
      Insert(s[|s| - 1], SortBy(s[..|s| - 1], key), key)
  }
}
