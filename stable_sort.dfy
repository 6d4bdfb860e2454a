/**
 * A stable sort on an integer key, as Python's `sorted(xs, key=...)` is:
 * the result is a permutation of the input, ordered by key, and elements
 * with equal keys keep their input order.
 */
module StableSort {

  predicate SortedBy<T>(s: seq<T>, key: T -> int) {
    forall i, j :: 0 <= i < j < |s| ==> key(s[i]) <= key(s[j])
  }

  /** The elements of `s` whose key is `k`, in the order they occur in `s`. */
  function WithKey<T>(s: seq<T>, key: T -> int, k: int): seq<T> {
    if s == [] then [] else (if key(s[0]) == k then [s[0]] else []) + WithKey(s[1..], key, k)
  }

  lemma WithKeyCons<T>(x: T, s: seq<T>, key: T -> int, k: int)
    ensures WithKey([x] + s, key, k) == (if key(x) == k then [x] else []) + WithKey(s, key, k)
  {
    assert ([x] + s)[1..] == s;
  }

  /** Inserts `x` in front of the first element whose key is not smaller than its own. */
  function Insert<T>(x: T, s: seq<T>, key: T -> int): (r: seq<T>)
    ensures |r| == |s| + 1
    ensures multiset(r) == multiset(s) + multiset{x}
  {
    if s == [] || key(x) <= key(s[0]) then [x] + s
    else
      assert s == [s[0]] + s[1..];
      [s[0]] + Insert(x, s[1..], key)
  }

  lemma {:induction false} InsertElements<T>(x: T, s: seq<T>, key: T -> int)
    ensures forall i :: 0 <= i < |s| + 1 ==> Insert(x, s, key)[i] == x || Insert(x, s, key)[i] in s
  {
    if !(s == [] || key(x) <= key(s[0])) {
      InsertElements(x, s[1..], key);
    }
  }

  lemma {:induction false} InsertKeepsSorted<T>(x: T, s: seq<T>, key: T -> int)
    requires SortedBy(s, key)
    ensures SortedBy(Insert(x, s, key), key)
  {
    if !(s == [] || key(x) <= key(s[0])) {
      var rest := Insert(x, s[1..], key);
      InsertKeepsSorted(x, s[1..], key);
      InsertElements(x, s[1..], key);
      var r := [s[0]] + rest;
      forall i, j | 0 <= i < j < |r| ensures key(r[i]) <= key(r[j]) {
        if i == 0 {
          assert r[j] == rest[j - 1];
          if rest[j - 1] != x {
            var m :| 0 <= m < |s[1..]| && s[1..][m] == rest[j - 1];
            assert s[m + 1] == rest[j - 1];
          }
        } else {
          assert r[i] == rest[i - 1] && r[j] == rest[j - 1];
        }
      }
    }
  }

  lemma {:induction false} InsertWithKeyAt<T>(x: T, s: seq<T>, key: T -> int, k: int)
    ensures WithKey(Insert(x, s, key), key, k) == (if key(x) == k then [x] else []) + WithKey(s, key, k)
  {
    if s == [] || key(x) <= key(s[0]) {
      assert Insert(x, s, key) == [x] + s;
      WithKeyCons(x, s, key, k);
    } else {
      var rest := Insert(x, s[1..], key);
      assert Insert(x, s, key) == [s[0]] + rest;
      InsertWithKeyAt(x, s[1..], key, k);
      WithKeyCons(s[0], rest, key, k);
      assert s == [s[0]] + s[1..];
      WithKeyCons(s[0], s[1..], key, k);
      var hx: seq<T> := if key(x) == k then [x] else [];
      var h0: seq<T> := if key(s[0]) == k then [s[0]] else [];
      var w := WithKey(s[1..], key, k);
      assert WithKey(Insert(x, s, key), key, k) == h0 + (hx + w);
      assert WithKey(s, key, k) == h0 + w;
      if key(x) == k {
        assert h0 == [];
      } else {
        assert hx == [];
      }
    }
  }

  lemma InsertWithKey<T>(x: T, s: seq<T>, key: T -> int)
    ensures forall k :: WithKey(Insert(x, s, key), key, k) == (if key(x) == k then [x] else []) + WithKey(s, key, k)
  {
    forall k ensures WithKey(Insert(x, s, key), key, k) == (if key(x) == k then [x] else []) + WithKey(s, key, k) {
      InsertWithKeyAt(x, s, key, k);
    }
  }

  /** `sorted(s, key=key)`. */
  function SortBy<T>(s: seq<T>, key: T -> int): (r: seq<T>)
    ensures multiset(r) == multiset(s)
    ensures SortedBy(r, key)
    ensures forall k :: WithKey(r, key, k) == WithKey(s, key, k)
  {
    if s == [] then []
    else
      var rest := SortBy(s[1..], key);
      assert s == [s[0]] + s[1..];
      InsertKeepsSorted(s[0], rest, key);
      InsertWithKey(s[0], rest, key);
      assert forall k :: WithKey(s, key, k) == (if key(s[0]) == k then [s[0]] else []) + WithKey(s[1..], key, k);
      Insert(s[0], rest, key)
  }
}
