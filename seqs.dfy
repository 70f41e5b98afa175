/** The list operations the modelled Python code relies on: comprehensions with an
    `if`, the stable `sorted`/`list.sort` by a key, slicing with Python's rules
    for negative bounds, and SQL's `LIMIT`. */
module Seqs {
  import opened Wrappers

  function Min(a: int, b: int): int { if a <= b then a else b }

  /** `[x for x in s if p(x)]` */
  function Filter<T>(s: seq<T>, p: T -> bool): (r: seq<T>)
    ensures |r| <= |s|
    ensures forall x | x in r :: x in s && p(x)
    ensures forall x | x in s && p(x) :: x in r
  {
    if s == [] then [] else (if p(s[0]) then [s[0]] else []) + Filter(s[1..], p)
  }

  /** A filter that every element passes keeps the whole list. */
  lemma {:induction false} FilterAll<T>(s: seq<T>, p: T -> bool)
    requires forall x | x in s :: p(x)
    ensures Filter(s, p) == s
  {
    if s != [] {
      assert forall x | x in s[1..] :: x in s;
      FilterAll(s[1..], p);
    }
  }

  /** The image of a list grows by the image of the element appended. */
  lemma ImageSnoc<T, U>(s: seq<T>, x: T, f: T -> U)
    ensures (set y | y in s + [x] :: f(y)) == (set y | y in s :: f(y)) + {f(x)}
  {
    assert forall y :: y in s + [x] <==> y in s || y == x;
  }

  /** Filtering a list with a first element. */
  lemma FilterCons<T>(a: T, t: seq<T>, p: T -> bool)
    ensures Filter([a] + t, p) == (if p(a) then [a] else []) + Filter(t, p)
  {
    assert ([a] + t)[0] == a && ([a] + t)[1..] == t;
  }

  /** Filtering a list extended by one element extends the filtered list by
      that element exactly when it passes. */
  lemma {:induction false} FilterSnoc<T>(s: seq<T>, x: T, p: T -> bool)
    ensures Filter(s + [x], p) == Filter(s, p) + (if p(x) then [x] else [])
  {
    if s == [] {
      assert s + [x] == [x] + [];
      FilterCons(x, [], p);
    } else {
      assert s + [x] == [s[0]] + (s[1..] + [x]);
      FilterCons(s[0], s[1..] + [x], p);
      FilterSnoc(s[1..], x, p);
      assert s == [s[0]] + s[1..];
      FilterCons(s[0], s[1..], p);
    }
  }

  /** Two filters that agree on every element keep the same elements. */
  lemma {:induction false} FilterSame<T>(s: seq<T>, p: T -> bool, p2: T -> bool)
    requires forall x | x in s :: p(x) == p2(x)
    ensures Filter(s, p) == Filter(s, p2)
  {
    if s != [] {
      assert forall x | x in s[1..] :: x in s;
      FilterSame(s[1..], p, p2);
    }
  }

  /** `[f(x) for x in s]` */
  function Map<T, U>(s: seq<T>, f: T -> U): (r: seq<U>)
    ensures |r| == |s|
    ensures forall i :: 0 <= i < |s| ==> r[i] == f(s[i])
  {
    seq(|s|, i requires 0 <= i < |s| => f(s[i]))
  }

  ghost predicate SortedBy<T>(s: seq<T>, key: T -> real) {
    forall i, j :: 0 <= i < j < |s| ==> key(s[i]) <= key(s[j])
  }

  /** Places `x` before the first element whose key is not smaller, so that an
      element inserted later (an earlier one of the input) precedes equal keys. */
  function Insert<T>(x: T, s: seq<T>, key: T -> real): (r: seq<T>)
    ensures |r| == |s| + 1
    ensures multiset(r) == multiset(s) + multiset{x}
    ensures x in r
    ensures forall y | y in r :: y == x || y in s
    ensures forall y | y in s :: y in r
  {
    if s == [] || key(x) <= key(s[0]) then [x] + s
    else
      assert s == [s[0]] + s[1..];
      [s[0]] + Insert(x, s[1..], key)
  }

  /** Inserting into a sorted list keeps it sorted. */
  lemma {:induction false} InsertSorted<T>(x: T, s: seq<T>, key: T -> real)
    requires SortedBy(s, key)
    ensures SortedBy(Insert(x, s, key), key)
  {
    if s == [] || key(x) <= key(s[0]) {
      forall y | y in s ensures key(x) <= key(y) {
        var j :| 0 <= j < |s| && s[j] == y;
      }
      ConsSorted(x, s, key);
    } else {
      var t := Insert(x, s[1..], key);
      InsertSorted(x, s[1..], key);
      forall y | y in t ensures key(s[0]) <= key(y) {
        if y != x {
          var j :| 0 <= j < |s[1..]| && s[1..][j] == y;
          assert s[j + 1] == y;
        }
      }
      ConsSorted(s[0], t, key);
    }
  }

  lemma ConsSorted<T>(a: T, t: seq<T>, key: T -> real)
    requires SortedBy(t, key) && forall y | y in t :: key(a) <= key(y)
    ensures SortedBy([a] + t, key)
  {
    var s := [a] + t;
    forall i, j | 0 <= i < j < |s| ensures key(s[i]) <= key(s[j]) {
      assert s[j] == t[j - 1];
      if i > 0 { assert s[i] == t[i - 1]; }
    }
  }

  /** Python's `sorted(s, key=key)`: a stable sort in ascending key order
      (`reverse=True` is the same sort on the negated key, since Python keeps
      equal keys in input order in both directions). */
  function SortBy<T>(s: seq<T>, key: T -> real): (r: seq<T>)
    ensures |r| == |s|
    ensures multiset(r) == multiset(s)
    ensures forall y | y in r :: y in s
    ensures forall y | y in s :: y in r
    ensures SortedBy(r, key)
  {
    if s == [] then []
    else
      assert s == [s[0]] + s[1..];
      InsertSorted(s[0], SortBy(s[1..], key), key);
      Insert(s[0], SortBy(s[1..], key), key)
  }

  /** The elements whose key is `v`. */
  function KeyIs<T>(key: T -> real, v: real): T -> bool { y => key(y) == v }

  /** Inserting `x` puts it before every element with the same key. */
  lemma {:induction false} InsertStable<T>(x: T, s: seq<T>, key: T -> real, v: real)
    ensures Filter(Insert(x, s, key), KeyIs(key, v)) == (if key(x) == v then [x] else []) + Filter(s, KeyIs(key, v))
  {
    var p := KeyIs(key, v);
    if s == [] || key(x) <= key(s[0]) {
      FilterCons(x, s, p);
    } else {
      var t := Insert(x, s[1..], key);
      assert Insert(x, s, key) == [s[0]] + t;
      InsertStable(x, s[1..], key, v);
      FilterCons(s[0], t, p);
      assert s == [s[0]] + s[1..];
      FilterCons(s[0], s[1..], p);
    }
  }

  /** `SortBy` is stable: the elements with any one key keep their input order. */
  lemma {:induction false} SortStable<T>(s: seq<T>, key: T -> real, v: real)
    ensures Filter(SortBy(s, key), KeyIs(key, v)) == Filter(s, KeyIs(key, v))
  {
    if s != [] {
      SortStable(s[1..], key, v);
      InsertStable(s[0], SortBy(s[1..], key), key, v);
    }
  }

  lemma MapCons<T, U>(a: T, s: seq<T>, g: T -> U)
    ensures Map([a] + s, g) == [g(a)] + Map(s, g)
  {
    var l, r := Map([a] + s, g), [g(a)] + Map(s, g);
    assert |l| == |r|;
    forall i | 0 <= i < |l| ensures l[i] == r[i] {
      if i > 0 { assert ([a] + s)[i] == s[i - 1]; }
    }
  }

  lemma {:induction false} InsertMap<T, U>(x: T, s: seq<T>, g: T -> U, k: U -> real, k2: T -> real)
    requires forall y :: k2(y) == k(g(y))
    ensures Insert(g(x), Map(s, g), k) == Map(Insert(x, s, k2), g)
  {
    if s == [] {
      MapCons(x, s, g);
    } else {
      var ms := Map(s, g);
      assert s == [s[0]] + s[1..];
      MapCons(s[0], s[1..], g);
      assert ms == [g(s[0])] + Map(s[1..], g);
      if k2(x) <= k2(s[0]) {
        assert k(g(x)) <= k(ms[0]);
        MapCons(x, s, g);
      } else {
        assert k(g(x)) > k(ms[0]);
        assert ms[1..] == Map(s[1..], g);
        InsertMap(x, s[1..], g, k, k2);
        MapCons(s[0], Insert(x, s[1..], k2), g);
      }
    }
  }

  /** Sorting commutes with a map when the key reads through it: sorting a list of
      `(item, score)` pairs by score is sorting the items by their score. */
  lemma {:induction false} SortByMap<T, U>(s: seq<T>, g: T -> U, k: U -> real, k2: T -> real)
    requires forall y :: k2(y) == k(g(y))
    ensures SortBy(Map(s, g), k) == Map(SortBy(s, k2), g)
  {
    if s != [] {
      assert Map(s, g)[0] == g(s[0]);
      assert Map(s, g)[1..] == Map(s[1..], g);
      SortByMap(s[1..], g, k, k2);
      InsertMap(s[0], SortBy(s[1..], k2), g, k, k2);
    }
  }

  /** Python's normalisation of one slice bound against a list of length `n`. */
  function PyIndex(i: int, n: nat): (k: nat)
    ensures k <= n
  {
    if i < 0 then (if i + n < 0 then 0 else i + n) else (if i > n then n else i)
  }

  /** `s[start:stop]` with Python's rules: negative bounds count from the end,
      bounds past either end are clamped, and an empty range gives `[]`. */
  function PySlice<T>(s: seq<T>, start: int, stop: int): (r: seq<T>)
    ensures PyIndex(start, |s|) + |r| <= |s|
    ensures r == s[PyIndex(start, |s|)..PyIndex(start, |s|) + |r|]
    ensures 0 <= start <= stop ==> r == s[Min(start, |s|)..Min(stop, |s|)]
    ensures 0 <= start <= stop ==> |r| <= stop - start
  {
    var lo, hi := PyIndex(start, |s|), PyIndex(stop, |s|);
    if lo < hi then s[lo..hi] else []
  }
  /** A slice of a sorted list is sorted. */
  lemma SlicedSorted<T>(s: seq<T>, key: T -> real, start: int, stop: int)
    requires SortedBy(s, key)
    ensures SortedBy(PySlice(s, start, stop), key)
  {
    var r, lo := PySlice(s, start, stop), PyIndex(start, |s|);
    forall i, j | 0 <= i < j < |r| ensures key(r[i]) <= key(r[j]) {
      assert r[i] == s[lo + i] && r[j] == s[lo + j];
    }
  }


  /** SQL `LIMIT n`; SQLite reads a negative limit as "no limit". */
  function SqlLimit<T>(s: seq<T>, n: int): (r: seq<T>)
    ensures |r| <= |s| && r == s[..|r|]
    ensures n >= 0 ==> |r| == Min(n, |s|)
    ensures n < 0 ==> r == s
  {
    if n < 0 then s else s[..Min(n, |s|)]
  }
  /** A prefix of a sorted list is sorted. */
  lemma SqlLimitSorted<T>(s: seq<T>, key: T -> real, n: int)
    requires SortedBy(s, key)
    ensures SortedBy(SqlLimit(s, n), key)
  {
    var r := SqlLimit(s, n);
    forall i, j | 0 <= i < j < |r| ensures key(r[i]) <= key(r[j]) {
      assert r[i] == s[i] && r[j] == s[j];
    }
  }

  /** The prefix a `LIMIT` keeps from a sorted list holds the least keys: no
      element left out has a smaller key than one kept. */
  lemma SqlLimitKeepsLeast<T>(s: seq<T>, key: T -> real, n: int)
    requires SortedBy(s, key)
    ensures forall x, y | x in s && x !in SqlLimit(s, n) && y in SqlLimit(s, n) :: key(y) <= key(x)
  {
    var r := SqlLimit(s, n);
    forall x, y | x in s && x !in r && y in r ensures key(y) <= key(x) {
      var i :| 0 <= i < |s| && s[i] == x;
      var j :| 0 <= j < |r| && r[j] == y;
      assert r[j] == s[j];
    }
  }

  /** The same read through a map `f` that keeps the key: every element left out
      has a key no smaller than that of any mapped element kept. */
  lemma MapLimitKeepsLeast<T, U>(s: seq<T>, key: T -> real, n: int, f: T -> U, fkey: U -> real)
    requires SortedBy(s, key)
    requires forall x :: fkey(f(x)) == key(x)
    ensures var r := Map(SqlLimit(s, n), f);
            forall x, y | x in s && f(x) !in r && y in r :: fkey(y) <= key(x)
  {
    var kept := SqlLimit(s, n);
    var r := Map(kept, f);
    SqlLimitKeepsLeast(s, key, n);
    forall x, y | x in s && f(x) !in r && y in r ensures fkey(y) <= key(x) {
      var k :| 0 <= k < |r| && r[k] == y;
      assert key(kept[k]) <= key(x);
    }
  }


  ghost predicate KeysDistinct<T, K>(s: seq<T>, key: T -> K) {
    forall i, j :: 0 <= i < j < |s| ==> key(s[i]) != key(s[j])
  }

  ghost function KeySet<T, K>(s: seq<T>, key: T -> K): set<K> {
    set x | x in s :: key(x)
  }

  lemma KeySetCons<T, K>(s: seq<T>, key: T -> K)
    requires s != []
    ensures KeySet(s, key) == {key(s[0])} + KeySet(s[1..], key)
  {
    assert s == [s[0]] + s[1..];
  }

  /** The tail of a list with distinct keys has distinct keys, none of them the head's. */
  lemma KeysDistinctCons<T, K>(s: seq<T>, key: T -> K)
    requires s != [] && KeysDistinct(s, key)
    ensures KeysDistinct(s[1..], key) && key(s[0]) !in KeySet(s[1..], key)
  {
    var t := s[1..];
    forall i, j | 0 <= i < j < |t| ensures key(t[i]) != key(t[j]) {
      assert t[i] == s[i + 1] && t[j] == s[j + 1];
    }
  }

  lemma KeySetSnoc<T, K>(s: seq<T>, i: nat, key: T -> K)
    requires i < |s|
    ensures KeySet(s[..i + 1], key) == KeySet(s[..i], key) + {key(s[i])}
  {
    assert s[..i + 1] == s[..i] + [s[i]];
  }

  /** Deleting one element keeps the remaining keys distinct. */
  lemma KeysDistinctSplice<T, K>(s: seq<T>, k: nat, key: T -> K)
    requires k < |s| && KeysDistinct(s, key)
    ensures KeysDistinct(s[..k] + s[k + 1..], key)
  {
    var t := s[..k] + s[k + 1..];
    forall i, j | 0 <= i < j < |t| ensures key(t[i]) != key(t[j]) {
      var i', j' := if i < k then i else i + 1, if j < k then j else j + 1;
      assert t[i] == s[i'] && t[j] == s[j'];
    }
  }

  /** Replacing an element by one with the same key keeps the keys distinct. */
  lemma KeysDistinctUpdate<T, K>(s: seq<T>, i: nat, x: T, key: T -> K)
    requires i < |s| && KeysDistinct(s, key) && key(x) == key(s[i])
    ensures KeysDistinct(s[i := x], key)
  {
    var t := s[i := x];
    assert forall m :: 0 <= m < |s| ==> key(t[m]) == key(s[m]);
  }

  /** Appending an element with a new key keeps the keys distinct. */
  lemma KeysDistinctAppend<T, K>(s: seq<T>, x: T, key: T -> K)
    requires KeysDistinct(s, key) && forall m :: 0 <= m < |s| ==> key(s[m]) != key(x)
    ensures KeysDistinct(s + [x], key)
  {
    var t := s + [x];
    assert forall m :: 0 <= m < |s| ==> t[m] == s[m];
  }

  /** A list has pairwise distinct keys exactly when it has as many keys as elements. */
  lemma {:induction false} KeySetSize<T, K>(s: seq<T>, key: T -> K)
    ensures |KeySet(s, key)| <= |s|
    ensures KeysDistinct(s, key) <==> |KeySet(s, key)| == |s|
  {
    if s != [] {
      var t := s[1..];
      KeySetSize(t, key);
      KeySetCons(s, key);
      KeysDistinctConsIff(s, key);
      if key(s[0]) in KeySet(t, key) {
        assert KeySet(s, key) == KeySet(t, key);
      } else {
        assert |KeySet(s, key)| == 1 + |KeySet(t, key)|;
      }
    }
  }

  lemma KeysDistinctConsIff<T, K>(s: seq<T>, key: T -> K)
    requires s != []
    ensures KeysDistinct(s, key) <==> KeysDistinct(s[1..], key) && key(s[0]) !in KeySet(s[1..], key)
  {
    var t := s[1..];
    if KeysDistinct(s, key) {
      KeysDistinctCons(s, key);
    } else if KeysDistinct(t, key) && key(s[0]) !in KeySet(t, key) {
      forall i, j | 0 <= i < j < |s| ensures key(s[i]) != key(s[j]) {
        if i == 0 { assert s[j] in t; }
        else { assert s[i] == t[i - 1] && s[j] == t[j - 1]; }
      }
    }
  }

  /** Reordering a list keeps its keys distinct. */
  lemma KeysDistinctPermutation<T, K>(a: seq<T>, b: seq<T>, key: T -> K)
    requires multiset(a) == multiset(b)
    requires KeysDistinct(a, key)
    ensures KeysDistinct(b, key)
  {
    assert forall x :: x in a <==> x in b by {
      forall x ensures x in a <==> x in b {
        assert x in a <==> x in multiset(a);
        assert x in b <==> x in multiset(b);
      }
    }
    assert KeySet(a, key) == KeySet(b, key);
    assert |a| == |multiset(a)| == |multiset(b)| == |b|;
    KeySetSize(a, key);
    KeySetSize(b, key);
  }

  /** Dropping elements keeps the remaining keys distinct. */
  lemma {:induction false} KeysDistinctFilter<T, K>(s: seq<T>, p: T -> bool, key: T -> K)
    requires KeysDistinct(s, key)
    ensures KeysDistinct(Filter(s, p), key)
  {
    if s != [] {
      KeysDistinctCons(s, key);
      KeysDistinctFilter(s[1..], p, key);
      var t := Filter(s[1..], p);
      if p(s[0]) {
        var f := Filter(s, p);
        assert f[0] == s[0] && f[1..] == t;
        assert KeySet(t, key) <= KeySet(s[1..], key);
        KeysDistinctConsIff(f, key);
      } else {
        assert Filter(s, p) == t;
      }
    }
  }

  /** The position of the first element whose key is `k` (a dictionary lookup on a
      table kept as a list in insertion order). */
  function IndexOf<T, K(==)>(s: seq<T>, key: T -> K, k: K): (r: Option<nat>)
    ensures r.Some? ==> r.value < |s| && key(s[r.value]) == k
    ensures r.Some? ==> forall i :: 0 <= i < r.value ==> key(s[i]) != k
    ensures r.None? <==> forall i :: 0 <= i < |s| ==> key(s[i]) != k
  {
    if s == [] then None
    else if key(s[0]) == k then Some(0)
    else match IndexOf(s[1..], key, k)
      case Some(i) =>
        assert forall j :: 1 <= j < i + 1 ==> s[j] == s[1..][j - 1];
        Some(i + 1)
      case None =>
        assert forall i :: 1 <= i < |s| ==> s[i] == s[1..][i - 1];
        None
  }
}
