/**
 * `Array.prototype.sort` with a numeric comparator `(a, b) => key(a) - key(b)`: a stable
 * sort into ascending key order, written as an insertion sort that places each element
 * after every earlier element with an equal key.
 */
module Sorting {

  ghost predicate SortedBy<T>(s: seq<T>, key: T -> int)
  {
    forall i, j | 0 <= i < j < |s| :: key(s[i]) <= key(s[j])
  }

  /** Insert `x` after every leading element of `s` whose key is not greater than its own. */
  function Insert<T>(x: T, s: seq<T>, key: T -> int): (r: seq<T>)
    ensures multiset(r) == multiset(s) + multiset{x}
  {
    if s == [] then [x]
    else if key(x) < key(s[0]) then [x] + s
    else
      assert s == [s[0]] + s[1..];
      [s[0]] + Insert(x, s[1..], key)
  }

  /** Inserting into a sorted sequence keeps it sorted. */
  lemma {:induction false} InsertSorted<T>(x: T, s: seq<T>, key: T -> int)
    requires SortedBy(s, key)
    ensures SortedBy(Insert(x, s, key), key)
  {
    if s != [] && key(x) >= key(s[0]) {
      var rest := Insert(x, s[1..], key);
      InsertSorted(x, s[1..], key);
      forall y | y in rest ensures key(s[0]) <= key(y) {
        assert y in multiset(rest);
        assert y in s[1..] || y == x;
      }
      var r := [s[0]] + rest;
      forall i, j | 0 <= i < j < |r| ensures key(r[i]) <= key(r[j]) {
        if i == 0 {
          assert r[j] in rest;
        }
      }
    }
  }

  /** The elements of `s` in ascending key order. */
  function SortBy<T>(s: seq<T>, key: T -> int): (r: seq<T>)
    ensures multiset(r) == multiset(s)
    ensures SortedBy(r, key)
  {
    if s == [] then []
    else
      assert s == s[..|s| - 1] + [s[|s| - 1]];
      var sorted := SortBy(s[..|s| - 1], key);
      InsertSorted(s[|s| - 1], sorted, key);
      Insert(s[|s| - 1], sorted, key)
  }

  /**
   * In a sorted sequence the first `n` elements have keys no greater than any element
   * left out of them: taking a prefix keeps the smallest keys.
   */
  lemma PrefixHoldsSmallest<T>(s: seq<T>, key: T -> int, n: nat, e: T)
    requires SortedBy(s, key) && n <= |s|
    requires e in s && e !in s[..n]
    ensures forall i | 0 <= i < n :: key(s[i]) <= key(e)
  {
    var j :| 0 <= j < |s| && s[j] == e;
    assert forall k | 0 <= k < n :: s[..n][k] == s[k] && s[..n][k] in s[..n];
    assert j >= n;
  }
}
