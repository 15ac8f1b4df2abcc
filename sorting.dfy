/**
 * Python's `sorted(xs, key=...)` for the two-component keys the code sorts by,
 * and `statistics.median`.
 *
 * A stable sort is determined by three facts, all proved about `SortBy`: the
 * output is ordered by key, it is a permutation of the input, and the elements
 * sharing any one key keep their input order.
 */
module Sorting {

  /** A sort key: Python compares such tuples component by component. */
  datatype Key = Key(major: real, minor: real)

  predicate KeyLe(a: Key, b: Key) {
    a.major < b.major || (a.major == b.major && a.minor <= b.minor)
  }

  predicate SortedBy<T>(s: seq<T>, key: T -> Key) {
    forall i, j :: 0 <= i < j < |s| ==> KeyLe(key(s[i]), key(s[j]))
  }

  /** The elements of `s` whose key is `k`, in order. */
  function WithKey<T>(s: seq<T>, key: T -> Key, k: Key): (r: seq<T>)
    ensures |r| <= |s|
  {
    if s == [] then []
    else WithKey(s[..|s| - 1], key, k) + (if key(s[|s| - 1]) == k then [s[|s| - 1]] else [])
  }

  lemma WithKeyAppend<T>(a: seq<T>, b: seq<T>, key: T -> Key, k: Key)
    ensures WithKey(a + b, key, k) == WithKey(a, key, k) + WithKey(b, key, k)
    decreases |b|
  {
    if b == [] {
      assert a + b == a;
    } else {
      var b' := b[..|b| - 1];
      assert (a + b)[..|a + b| - 1] == a + b';
      WithKeyAppend(a, b', key, k);
    }
  }

  /** Inserts `x` after every element of `t` whose key is not greater than its own. */
  function Insert<T>(t: seq<T>, x: T, key: T -> Key): (r: seq<T>)
    ensures multiset(r) == multiset(t) + multiset{x}
    ensures |r| == |t| + 1
  {
    if t == [] then [x]
    else if KeyLe(key(t[|t| - 1]), key(x)) then t + [x]
    else
      assert t == t[..|t| - 1] + [t[|t| - 1]];
      Insert(t[..|t| - 1], x, key) + [t[|t| - 1]]
  }

  /** `sorted(s, key=key)`: insertion of each element in turn into the sorted prefix. */
  function SortBy<T>(s: seq<T>, key: T -> Key): (r: seq<T>)
    ensures multiset(r) == multiset(s)
    ensures |r| == |s|
  {
    if s == [] then []
    else
      assert s == s[..|s| - 1] + [s[|s| - 1]];
      Insert(SortBy(s[..|s| - 1], key), s[|s| - 1], key)
  }

  lemma {:induction false} InsertSorted<T>(t: seq<T>, x: T, key: T -> Key)
    requires SortedBy(t, key)
    ensures SortedBy(Insert(t, x, key), key)
    decreases |t|
  {
    if t == [] || KeyLe(key(t[|t| - 1]), key(x)) {
    } else {
      var t' := t[..|t| - 1];
      var last := t[|t| - 1];
      InsertSorted(t', x, key);
      var r' := Insert(t', x, key);
      forall e | e in r' ensures KeyLe(key(e), key(last)) {
        assert e in multiset(r');
        if e == x {
        } else {
          assert e in multiset(t');
          var i :| 0 <= i < |t'| && t'[i] == e;
          assert t[i] == e;
        }
      }
      assert forall i :: 0 <= i < |r'| ==> r'[i] in r';
    }
  }

  lemma WithKeySingle<T>(x: T, key: T -> Key, k: Key)
    ensures WithKey([x], key, k) == if key(x) == k then [x] else []
  {
    assert [x][..0] == [];
  }

  lemma {:induction false} InsertStable<T>(t: seq<T>, x: T, key: T -> Key, k: Key)
    ensures WithKey(Insert(t, x, key), key, k) == WithKey(t, key, k) + WithKey([x], key, k)
    decreases |t|
  {
    if t == [] {
      WithKeySingle(x, key, k);
    } else if KeyLe(key(t[|t| - 1]), key(x)) {
      WithKeyAppend(t, [x], key, k);
    } else {
      var t', last := t[..|t| - 1], t[|t| - 1];
      InsertStable(t', x, key, k);
      assert t' + [last] == t;
      InsertStableLast(t', last, x, key, k);
    }
  }

  /** The step of `InsertStable` where `x` goes before the last element `last`. */
  lemma InsertStableLast<T>(t': seq<T>, last: T, x: T, key: T -> Key, k: Key)
    requires !KeyLe(key(last), key(x))
    requires WithKey(Insert(t', x, key), key, k) == WithKey(t', key, k) + WithKey([x], key, k)
    ensures WithKey(Insert(t' + [last], x, key), key, k) == WithKey(t' + [last], key, k) + WithKey([x], key, k)
  {
    var ins := Insert(t', x, key);
    var a, wx, wl := WithKey(t', key, k), WithKey([x], key, k), WithKey([last], key, k);
    InsertBeforeLast(t', last, x, key);
    WithKeyAppend(ins, [last], key, k);
    WithKeyAppend(t', [last], key, k);
    OneOfTwoWithKey(x, last, key, k);
    if wx == [] {
      assert a + wx + wl == a + wl && a + wl + wx == a + wl;
    } else {
      assert a + wx + wl == a + wx && a + wl + wx == a + wx;
    }
  }

  /** `x` goes before a last element whose key is greater. */
  lemma InsertBeforeLast<T>(t': seq<T>, last: T, x: T, key: T -> Key)
    requires !KeyLe(key(last), key(x))
    ensures Insert(t' + [last], x, key) == Insert(t', x, key) + [last]
  {
    var t := t' + [last];
    assert t[..|t| - 1] == t' && t[|t| - 1] == last;
  }

  /** Of `x` and a `last` whose key is greater, at most one has key `k`. */
  lemma OneOfTwoWithKey<T>(x: T, last: T, key: T -> Key, k: Key)
    requires !KeyLe(key(last), key(x))
    ensures WithKey([x], key, k) == [] || WithKey([last], key, k) == []
  {
    WithKeySingle(x, key, k);
    WithKeySingle(last, key, k);
    assert KeyLe(key(x), key(x));
  }

  /** `SortBy` orders by key. */
  lemma {:induction false} SortBySorted<T>(s: seq<T>, key: T -> Key)
    ensures SortedBy(SortBy(s, key), key)
    decreases |s|
  {
    if s != [] {
      SortBySorted(s[..|s| - 1], key);
      InsertSorted(SortBy(s[..|s| - 1], key), s[|s| - 1], key);
    }
  }

  /** `SortBy` is stable: the elements of any one key come out in their input order. */
  lemma {:induction false} SortByStable<T>(s: seq<T>, key: T -> Key, k: Key)
    ensures WithKey(SortBy(s, key), key, k) == WithKey(s, key, k)
    decreases |s|
  {
    if s != [] {
      var s' := s[..|s| - 1];
      SortByStable(s', key, k);
      InsertStable(SortBy(s', key), s[|s| - 1], key, k);
      assert [] + [s[|s| - 1]] == [s[|s| - 1]];
    }
  }

  /** An input already ordered by key is returned unchanged. */
  lemma {:induction false} SortBySortedInput<T>(s: seq<T>, key: T -> Key)
    requires SortedBy(s, key)
    ensures SortBy(s, key) == s
    decreases |s|
  {
    if s != [] {
      var s' := s[..|s| - 1];
      assert SortedBy(s', key);
      SortBySortedInput(s', key);
      if |s'| > 0 {
        assert KeyLe(key(s'[|s'| - 1]), key(s[|s| - 1]));
      }
      assert s' + [s[|s| - 1]] == s;
    }
  }

  function RealKey(x: real): Key { Key(x, 0.0) }

  /** `statistics.median`: the middle of the sorted values, or the mean of the two middle ones. */
  function Median(xs: seq<real>): (m: real)
    requires |xs| > 0
  {
    var d := SortBy(xs, RealKey);
    var n := |d|;
    if n % 2 == 1 then d[n / 2] else (d[n / 2 - 1] + d[n / 2]) / 2.0
  }

  /** The median lies between two of the values: no value is below all of them or above all of them. */
  lemma MedianBounds(xs: seq<real>)
    requires |xs| > 0
    ensures exists i :: 0 <= i < |xs| && xs[i] <= Median(xs)
    ensures exists j :: 0 <= j < |xs| && Median(xs) <= xs[j]
  {
    var d := SortBy(xs, RealKey);
    SortBySorted(xs, RealKey);
    var n := |d|;
    var lo := if n % 2 == 1 then n / 2 else n / 2 - 1;
    var hi := n / 2;
    assert KeyLe(RealKey(d[lo]), RealKey(d[hi])) || lo == hi;
    assert d[lo] in multiset(xs) && d[hi] in multiset(xs);
    var i :| 0 <= i < |xs| && xs[i] == d[lo];
    var j :| 0 <= j < |xs| && xs[j] == d[hi];
  }

  /** Equal values have that value as median. */
  lemma MedianOfConstant(xs: seq<real>, c: real)
    requires |xs| > 0
    requires forall i :: 0 <= i < |xs| ==> xs[i] == c
    ensures Median(xs) == c
  {
    var d := SortBy(xs, RealKey);
    forall k | 0 <= k < |d| ensures d[k] == c {
      assert d[k] in multiset(xs);
    }
  }
}
