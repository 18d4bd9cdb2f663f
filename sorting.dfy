/** Python's stable `list.sort(key=...)`.  A sort with `reverse=True` is also
    stable, so it equals an ascending stable sort by the negated key; callers
    build such a key.  Keys are pairs compared lexicographically, like the
    tuples the source sorts by. */
module Sorting {

  datatype SortKey = SortKey(major: int, minor: real)

  predicate KeyLe(a: SortKey, b: SortKey) {
    a.major < b.major || (a.major == b.major && a.minor <= b.minor)
  }

  predicate SortedBy<T>(s: seq<T>, key: T -> SortKey) {
    forall i, j :: 0 <= i < j < |s| ==> KeyLe(key(s[i]), key(s[j]))
  }

  /** Inserts `x` in front of the first element whose key is not smaller. */
  function Insert<T>(x: T, t: seq<T>, key: T -> SortKey): (r: seq<T>)
    ensures |r| == |t| + 1
    ensures multiset(r) == multiset(t) + multiset{x}
  {
    if t == [] || KeyLe(key(x), key(t[0])) then
      [x] + t
    else
      assert t == [t[0]] + t[1..];
      [t[0]] + Insert(x, t[1..], key)
  }

  /** Every element of `Insert(x, t)` is `x` or an element of `t`. */
  lemma {:induction false} InsertElements<T>(x: T, t: seq<T>, key: T -> SortKey, i: int)
    requires 0 <= i < |t| + 1
    ensures Insert(x, t, key)[i] == x || Insert(x, t, key)[i] in t
  {
    var r := Insert(x, t, key);
    assert r[i] in multiset(r);
  }

  lemma {:induction false} InsertSorted<T>(x: T, t: seq<T>, key: T -> SortKey)
    requires SortedBy(t, key)
    ensures SortedBy(Insert(x, t, key), key)
  {
    if t == [] || KeyLe(key(x), key(t[0])) {
      var r := [x] + t;
      forall i, j | 0 <= i < j < |r|
        ensures KeyLe(key(r[i]), key(r[j]))
      {
        if i > 0 {
          assert r[i] == t[i - 1] && r[j] == t[j - 1];
        } else if j > 1 {
          assert KeyLe(key(t[0]), key(t[j - 1]));
        }
      }
    } else {
      var rest := Insert(x, t[1..], key);
      InsertSorted(x, t[1..], key);
      var r := [t[0]] + rest;
      forall i, j | 0 <= i < j < |r|
        ensures KeyLe(key(r[i]), key(r[j]))
      {
        if i > 0 {
          assert r[i] == rest[i - 1] && r[j] == rest[j - 1];
        } else {
          InsertElements(x, t[1..], key, j - 1);
          if rest[j - 1] != x {
            var m :| 0 <= m < |t[1..]| && t[1..][m] == rest[j - 1];
            assert t[m + 1] == rest[j - 1];
          }
        }
      }
    }
  }

  /** Insertion sort; the first element goes before every later element
      with an equal key, which is what makes it stable. */
  function SortBy<T>(s: seq<T>, key: T -> SortKey): (r: seq<T>)
    ensures |r| == |s|
    ensures multiset(r) == multiset(s)
    ensures SortedBy(r, key)
  {
    if s == [] then []
    else
      assert s == [s[0]] + s[1..];
      var rest := SortBy(s[1..], key);
      InsertSorted(s[0], rest, key);
      Insert(s[0], rest, key)
  }

  /** The elements of `s` whose key is `k`, in their order in `s`. */
  function WithKey<T>(s: seq<T>, key: T -> SortKey, k: SortKey): seq<T> {
    if s == [] then []
    else (if key(s[0]) == k then [s[0]] else []) + WithKey(s[1..], key, k)
  }

  lemma {:induction false} WithKeyCons<T>(y: T, s: seq<T>, key: T -> SortKey, k: SortKey)
    ensures WithKey([y] + s, key, k) == (if key(y) == k then [y] else []) + WithKey(s, key, k)
  {
    assert ([y] + s)[1..] == s;
  }

  lemma {:induction false} SortedTail<T>(t: seq<T>, key: T -> SortKey)
    requires t != [] && SortedBy(t, key)
    ensures SortedBy(t[1..], key)
  {
    forall i, j | 0 <= i < j < |t[1..]| ensures KeyLe(key(t[1..][i]), key(t[1..][j])) {
      assert t[1..][i] == t[i + 1] && t[1..][j] == t[j + 1];
    }
  }

  lemma {:induction false} InsertKeepsTies<T>(x: T, t: seq<T>, key: T -> SortKey, k: SortKey)
    requires SortedBy(t, key)
    ensures WithKey(Insert(x, t, key), key, k) == WithKey([x] + t, key, k)
  {
    if t != [] && !KeyLe(key(x), key(t[0])) {
      var rest := Insert(x, t[1..], key);
      SortedTail(t, key);
      InsertKeepsTies(x, t[1..], key, k);
      var xs := if key(x) == k then [x] else [];
      var ts := if key(t[0]) == k then [t[0]] else [];
      var w := WithKey(t[1..], key, k);
      WithKeyCons(t[0], rest, key, k);
      WithKeyCons(x, t[1..], key, k);
      WithKeyCons(x, t, key, k);
      assert WithKey(t, key, k) == ts + w;
      if key(x) == k {
        assert ts == [];
        assert [] + w == w && [] + (xs + w) == xs + w;
      } else {
        assert [] + w == w && [] + (ts + w) == ts + w;
      }
    }
  }

  /** Stability: for every key, the elements carrying it keep their order. */
  lemma {:induction false} SortByIsStable<T>(s: seq<T>, key: T -> SortKey, k: SortKey)
    ensures WithKey(SortBy(s, key), key, k) == WithKey(s, key, k)
  {
    if s != [] {
      SortByIsStable(s[1..], key, k);
      InsertKeepsTies(s[0], SortBy(s[1..], key), key, k);
      assert ([s[0]] + SortBy(s[1..], key))[1..] == SortBy(s[1..], key);
    }
  }
}
