/** Sequence helpers shared by the retrieval model: Python's stable
    list.sort, and "keep the first item per key" de-duplication. */
module Collections {

  /** Non-decreasing by key. */
  predicate SortedBy<T>(xs: seq<T>, key: T -> real)
  {
    forall i, j :: 0 <= i < j < |xs| ==> key(xs[i]) <= key(xs[j])
  }

  /** Inserts x in front of the first element whose key is not smaller. */
  function Insert<T>(x: T, ys: seq<T>, key: T -> real): (r: seq<T>)
    ensures multiset(r) == multiset(ys) + multiset{x}
    ensures |r| == |ys| + 1
  {
    if ys == [] || key(x) <= key(ys[0]) then [x] + ys
    else
      assert ys == [ys[0]] + ys[1..];
      [ys[0]] + Insert(x, ys[1..], key)
  }

  /** Python's stable sort by a key: insertion sort from the back, so that
      of two elements with equal keys the earlier one stays in front. */
  function SortBy<T>(xs: seq<T>, key: T -> real): (r: seq<T>)
    ensures multiset(r) == multiset(xs)
    ensures |r| == |xs|
  {
    if xs == [] then []
    else
      assert xs == [xs[0]] + xs[1..];
      Insert(xs[0], SortBy(xs[1..], key), key)
  }

  /** No key below b. */
  predicate KeysAtLeast<T>(ys: seq<T>, key: T -> real, b: real)
  {
    forall i :: 0 <= i < |ys| ==> b <= key(ys[i])
  }

  lemma {:induction false} InsertKeysAtLeast<T>(x: T, ys: seq<T>, key: T -> real, b: real)
    requires KeysAtLeast(ys, key, b) && b <= key(x)
    ensures KeysAtLeast(Insert(x, ys, key), key, b)
  {
    if ys != [] && key(x) > key(ys[0]) {
      InsertKeysAtLeast(x, ys[1..], key, b);
    }
  }

  lemma {:induction false} InsertSorted<T>(x: T, ys: seq<T>, key: T -> real)
    requires SortedBy(ys, key)
    ensures SortedBy(Insert(x, ys, key), key)
  {
    if ys != [] && key(x) > key(ys[0]) {
      var rest := Insert(x, ys[1..], key);
      InsertSorted(x, ys[1..], key);
      assert KeysAtLeast(ys[1..], key, key(ys[0])) by {
        forall i | 0 <= i < |ys[1..]| ensures key(ys[0]) <= key(ys[1..][i]) {
          assert ys[1..][i] == ys[i + 1];
        }
      }
      InsertKeysAtLeast(x, ys[1..], key, key(ys[0]));
      var r := [ys[0]] + rest;
      assert r == Insert(x, ys, key);
      forall i, j | 0 <= i < j < |r| ensures key(r[i]) <= key(r[j]) {
        assert r[j] == rest[j - 1];
        if i > 0 { assert r[i] == rest[i - 1]; }
      }
    }
  }

  /** SortBy yields a list ordered by key. */
  lemma {:induction false} SortBySorted<T>(xs: seq<T>, key: T -> real)
    ensures SortedBy(SortBy(xs, key), key)
  {
    if xs != [] {
      SortBySorted(xs[1..], key);
      InsertSorted(xs[0], SortBy(xs[1..], key), key);
    }
  }

  /** The elements whose key is v, in their original order. */
  function FilterKey<T>(xs: seq<T>, key: T -> real, v: real): seq<T>
  {
    if xs == [] then []
    else (if key(xs[0]) == v then [xs[0]] else []) + FilterKey(xs[1..], key, v)
  }

  lemma {:induction false} InsertFilter<T>(x: T, ys: seq<T>, key: T -> real, v: real)
    ensures FilterKey(Insert(x, ys, key), key, v)
         == (if key(x) == v then [x] else []) + FilterKey(ys, key, v)
  {
    if ys == [] || key(x) <= key(ys[0]) {
      assert ([x] + ys)[1..] == ys;
    } else {
      var r := Insert(x, ys[1..], key);
      var f0 := if key(ys[0]) == v then [ys[0]] else [];
      var fx := if key(x) == v then [x] else [];
      var rest := FilterKey(ys[1..], key, v);
      InsertFilter(x, ys[1..], key, v);
      assert ([ys[0]] + r)[1..] == r;
      assert FilterKey([ys[0]] + r, key, v) == f0 + (fx + rest);
      assert FilterKey(ys, key, v) == f0 + rest;
      if fx != [] {
        assert f0 == [];
      }
    }
  }

  lemma {:induction false} FilterKeyAppend<T>(a: seq<T>, b: seq<T>, key: T -> real, v: real)
    ensures FilterKey(a + b, key, v) == FilterKey(a, key, v) + FilterKey(b, key, v)
  {
    if a == [] {
      assert a + b == b;
    } else {
      var h := if key(a[0]) == v then [a[0]] else [];
      assert (a + b)[0] == a[0] && (a + b)[1..] == a[1..] + b;
      assert FilterKey(a + b, key, v) == h + FilterKey(a[1..] + b, key, v);
      FilterKeyAppend(a[1..], b, key, v);
      assert h + (FilterKey(a[1..], key, v) + FilterKey(b, key, v))
          == (h + FilterKey(a[1..], key, v)) + FilterKey(b, key, v);
    }
  }

  /** The elements with key v in a prefix are a prefix of those in the
      whole list. */
  lemma FilterKeyPrefix<T>(xs: seq<T>, n: nat, key: T -> real, v: real)
    requires n <= |xs|
    ensures var fp := FilterKey(xs[..n], key, v);
      |fp| <= |FilterKey(xs, key, v)| && fp == FilterKey(xs, key, v)[..|fp|]
  {
    assert xs == xs[..n] + xs[n..];
    FilterKeyAppend(xs[..n], xs[n..], key, v);
  }

  /** The sorted list has the elements of the input. */
  lemma SortBySubset<T>(xs: seq<T>, key: T -> real)
    ensures forall y :: y in SortBy(xs, key) <==> y in xs
  {
    var s := SortBy(xs, key);
    forall y ensures y in s <==> y in xs {
      assert y in s <==> y in multiset(s);
      assert y in xs <==> y in multiset(xs);
    }
  }

  /** Cutting a sorted list after n elements drops only elements whose key
      is at least that of every element kept. */
  lemma SortedCut<T>(s: seq<T>, n: nat, key: T -> real)
    requires n <= |s| && SortedBy(s, key)
    ensures forall x, y :: x in s && x !in s[..n] && y in s[..n] ==> key(y) <= key(x)
  {
    forall x, y | x in s && x !in s[..n] && y in s[..n] ensures key(y) <= key(x) {
      var p :| 0 <= p < |s| && s[p] == x;
      var q :| 0 <= q < n && s[..n][q] == y;
      assert forall i :: 0 <= i < n ==> s[..n][i] == s[i] && s[i] in s[..n];
    }
  }

  /** Stability: for every key value the elements carrying it keep their
      relative order. */
  lemma {:induction false} SortByStable<T>(xs: seq<T>, key: T -> real, v: real)
    ensures FilterKey(SortBy(xs, key), key, v) == FilterKey(xs, key, v)
  {
    if xs != [] {
      SortByStable(xs[1..], key, v);
      InsertFilter(xs[0], SortBy(xs[1..], key), key, v);
    }
  }

  /** The keys occurring in xs. */
  function KeySet<T, K(==)>(xs: seq<T>, key: T -> K): (ks: set<K>)
    ensures forall i :: 0 <= i < |xs| ==> key(xs[i]) in ks
  {
    if xs == [] then {}
    else KeySet(xs[..|xs| - 1], key) + {key(xs[|xs| - 1])}
  }

  /** A key of xs occurs at some position. */
  lemma {:induction false} KeySetWitness<T, K>(xs: seq<T>, key: T -> K, k: K)
    requires k in KeySet(xs, key)
    ensures exists i :: 0 <= i < |xs| && key(xs[i]) == k
  {
    var n := |xs| - 1;
    if key(xs[n]) != k {
      KeySetWitness(xs[..n], key, k);
      var i :| 0 <= i < n && key(xs[..n][i]) == k;
      assert xs[i] == xs[..n][i];
    }
  }

  /** Position of the first element of xs whose key is k. */
  function FirstIndex<T, K(==)>(xs: seq<T>, key: T -> K, k: K): (j: nat)
    requires k in KeySet(xs, key)
    ensures j < |xs| && key(xs[j]) == k
    ensures forall i :: 0 <= i < j ==> key(xs[i]) != k
  {
    if key(xs[0]) == k then 0
    else
      assert k in KeySet(xs[1..], key) by {
        KeySetWitness(xs, key, k);
        var i :| 0 <= i < |xs| && key(xs[i]) == k;
        assert key(xs[1..][i - 1]) == k;
      }
      1 + FirstIndex(xs[1..], key, k)
  }

  /** Keeps the first element for each key, in order of first appearance,
      as a loop with a "seen" set does. */
  function DedupBy<T, K(==)>(xs: seq<T>, key: T -> K): (d: seq<T>)
    ensures KeySet(d, key) == KeySet(xs, key)
    ensures forall i, j :: 0 <= i < j < |d| ==> key(d[i]) != key(d[j])
    ensures |d| <= |xs|
  {
    if xs == [] then []
    else
      var init := DedupBy(xs[..|xs| - 1], key);
      var x := xs[|xs| - 1];
      if key(x) in KeySet(xs[..|xs| - 1], key) then init
      else
        assert (init + [x])[..|init|] == init;
        init + [x]
  }

  /** FirstIndex is the one position holding the key with no earlier
      position holding it. */
  lemma FirstIndexUnique<T, K>(xs: seq<T>, key: T -> K, k: K, j: nat)
    requires j < |xs| && key(xs[j]) == k
    requires forall i :: 0 <= i < j ==> key(xs[i]) != k
    ensures k in KeySet(xs, key) && FirstIndex(xs, key, k) == j
  {
  }

  lemma FirstIndexPrefix<T, K>(xs: seq<T>, n: nat, key: T -> K, k: K)
    requires n <= |xs| && k in KeySet(xs[..n], key)
    ensures k in KeySet(xs, key)
    ensures FirstIndex(xs, key, k) == FirstIndex(xs[..n], key, k)
  {
    var j := FirstIndex(xs[..n], key, k);
    assert xs[..n][j] == xs[j];
    forall i | 0 <= i < j ensures key(xs[i]) != k {
      assert xs[..n][i] == xs[i];
    }
    FirstIndexUnique(xs, key, k, j);
  }

  /** Every kept element is the first element of xs carrying its key. */
  lemma {:induction false} DedupKeepsFirst<T, K>(xs: seq<T>, key: T -> K, i: nat)
    requires i < |DedupBy(xs, key)|
    ensures key(DedupBy(xs, key)[i]) in KeySet(xs, key)
    ensures DedupBy(xs, key)[i] == xs[FirstIndex(xs, key, key(DedupBy(xs, key)[i]))]
  {
    var d := DedupBy(xs, key);
    assert key(d[i]) in KeySet(d, key);
    var n := |xs| - 1;
    var pre := xs[..n];
    var init := DedupBy(pre, key);
    assert xs == pre + [xs[n]];
    DedupSnoc(pre, xs[n], key);
    if i < |init| {
      assert d[i] == init[i];
      DedupKeepsFirst(pre, key, i);
      assert key(init[i]) in KeySet(init, key);
      FirstIndexPrefix(xs, n, key, key(init[i]));
    } else {
      FirstIndexLast(xs, key);
    }
  }

  /** When the last element's key is new, the last position is its first. */
  lemma FirstIndexLast<T, K>(xs: seq<T>, key: T -> K)
    requires xs != [] && key(xs[|xs| - 1]) !in KeySet(xs[..|xs| - 1], key)
    ensures key(xs[|xs| - 1]) in KeySet(xs, key)
    ensures FirstIndex(xs, key, key(xs[|xs| - 1])) == |xs| - 1
  {
    var n := |xs| - 1;
    forall i | 0 <= i < n ensures key(xs[i]) != key(xs[n]) {
      assert key(xs[..n][i]) in KeySet(xs[..n], key);
    }
  }

  /** The kept elements appear in the order of their first positions. */
  lemma {:induction false} DedupOrder<T, K>(xs: seq<T>, key: T -> K, i: nat, i': nat)
    requires i < i' < |DedupBy(xs, key)|
    ensures key(DedupBy(xs, key)[i]) in KeySet(xs, key)
    ensures key(DedupBy(xs, key)[i']) in KeySet(xs, key)
    ensures FirstIndex(xs, key, key(DedupBy(xs, key)[i]))
          < FirstIndex(xs, key, key(DedupBy(xs, key)[i']))
  {
    var n := |xs| - 1;
    var pre := xs[..n];
    var init := DedupBy(pre, key);
    var d := DedupBy(xs, key);
    var isNew := key(xs[n]) !in KeySet(pre, key);
    assert d == if isNew then init + [xs[n]] else init;
    var k := key(init[i]);
    assert d[i] == init[i];
    assert k in KeySet(init, key);
    FirstIndexPrefix(xs, n, key, k);
    if i' < |init| {
      var k' := key(init[i']);
      assert d[i'] == init[i'];
      assert k' in KeySet(init, key);
      FirstIndexPrefix(xs, n, key, k');
      DedupOrder(pre, key, i, i');
    } else {
      FirstIndexLast(xs, key);
    }
  }

  /** The first k elements, or all of them when there are fewer. */
  function Take<T>(xs: seq<T>, k: nat): (r: seq<T>)
    ensures |r| == if |xs| <= k then |xs| else k
    ensures r == xs[..|r|]
  {
    if |xs| <= k then xs else xs[..k]
  }

  /** Appending one element: it is kept exactly when its key is new. */
  lemma DedupSnoc<T, K>(xs: seq<T>, x: T, key: T -> K)
    ensures DedupBy(xs + [x], key)
         == if key(x) in KeySet(xs, key) then DedupBy(xs, key) else DedupBy(xs, key) + [x]
  {
    assert (xs + [x])[..|xs|] == xs;
  }

  /** Every kept element is an element of the input. */
  lemma {:induction false} DedupSubset<T, K>(xs: seq<T>, key: T -> K)
    ensures forall y :: y in DedupBy(xs, key) ==> y in xs
  {
    if xs != [] {
      var n := |xs| - 1;
      DedupSubset(xs[..n], key);
      assert xs == xs[..n] + [xs[n]];
      DedupSnoc(xs[..n], xs[n], key);
    }
  }

  lemma SortedSnoc<T>(ys: seq<T>, x: T, order: T -> real)
    requires SortedBy(ys, order) && KeysAtMost(ys, order, order(x))
    ensures SortedBy(ys + [x], order)
  {
    var r := ys + [x];
    forall i, j | 0 <= i < j < |r| ensures order(r[i]) <= order(r[j]) {
      assert r[i] == ys[i];
      if j < |ys| { assert r[j] == ys[j]; }
    }
  }

  /** No key above b. */
  predicate KeysAtMost<T>(ys: seq<T>, key: T -> real, b: real)
  {
    forall i :: 0 <= i < |ys| ==> key(ys[i]) <= b
  }

  lemma SortedPrefix<T>(xs: seq<T>, n: nat, order: T -> real)
    requires n <= |xs| && SortedBy(xs, order)
    ensures SortedBy(xs[..n], order)
  {
    forall i, j | 0 <= i < j < n ensures order(xs[..n][i]) <= order(xs[..n][j]) {
      assert xs[..n][i] == xs[i] && xs[..n][j] == xs[j];
    }
  }

  lemma DedupAtMost<T, K>(xs: seq<T>, key: T -> K, order: T -> real, b: real)
    requires KeysAtMost(xs, order, b)
    ensures KeysAtMost(DedupBy(xs, key), order, b)
  {
    DedupSubset(xs, key);
    var d := DedupBy(xs, key);
    forall i | 0 <= i < |d| ensures order(d[i]) <= b {
      assert d[i] in xs;
    }
  }

  /** De-duplication keeps a key order. */
  lemma {:induction false} DedupSorted<T, K>(xs: seq<T>, key: T -> K, order: T -> real)
    requires SortedBy(xs, order)
    ensures SortedBy(DedupBy(xs, key), order)
  {
    if xs != [] {
      var n := |xs| - 1;
      var pre := xs[..n];
      var x := xs[n];
      SortedPrefix(xs, n, order);
      DedupSorted(pre, key, order);
      assert KeysAtMost(pre, order, order(x)) by {
        forall i | 0 <= i < |pre| ensures order(pre[i]) <= order(x) {
          assert pre[i] == xs[i];
        }
      }
      DedupAtMost(pre, key, order, order(x));
      assert xs == pre + [x];
      DedupSnoc(pre, x, key);
      if key(x) !in KeySet(pre, key) {
        SortedSnoc(DedupBy(pre, key), x, order);
      }
    }
  }

  /** The lists one after the other. */
  function Flatten<T>(xss: seq<seq<T>>): seq<T>
  {
    if xss == [] then [] else Flatten(xss[..|xss| - 1]) + xss[|xss| - 1]
  }

  lemma FlattenSnoc<T>(xss: seq<seq<T>>, ys: seq<T>)
    ensures Flatten(xss + [ys]) == Flatten(xss) + ys
  {
    assert (xss + [ys])[..|xss|] == xss;
  }

  lemma KeySetSnoc<T, K>(xs: seq<T>, x: T, key: T -> K)
    ensures KeySet(xs + [x], key) == KeySet(xs, key) + {key(x)}
  {
    assert (xs + [x])[..|xs|] == xs;
  }

  /** No key occurs twice. */
  predicate DistinctKeys<T, K(==)>(xs: seq<T>, key: T -> K)
  {
    forall i, j :: 0 <= i < j < |xs| ==> key(xs[i]) != key(xs[j])
  }

  lemma {:induction false} InsertDistinct<T, K>(x: T, ys: seq<T>, order: T -> real, key: T -> K)
    requires DistinctKeys(ys, key) && forall y :: y in ys ==> key(y) != key(x)
    ensures DistinctKeys(Insert(x, ys, order), key)
    ensures forall z :: z in Insert(x, ys, order) ==> z == x || z in ys
  {
    var r := Insert(x, ys, order);
    if ys == [] || order(x) <= order(ys[0]) {
      forall i, j | 0 <= i < j < |r| ensures key(r[i]) != key(r[j]) {
        assert r[j] == ys[j - 1];
        if i > 0 { assert r[i] == ys[i - 1]; }
      }
    } else {
      var rest := Insert(x, ys[1..], order);
      assert DistinctKeys(ys[1..], key) by {
        forall i, j | 0 <= i < j < |ys[1..]| ensures key(ys[1..][i]) != key(ys[1..][j]) {
          assert ys[1..][i] == ys[i + 1] && ys[1..][j] == ys[j + 1];
        }
      }
      InsertDistinct(x, ys[1..], order, key);
      assert r == [ys[0]] + rest;
      forall z | z in rest ensures key(z) != key(ys[0]) {
        if z != x {
          var k :| 0 <= k < |ys[1..]| && ys[1..][k] == z;
          assert ys[k + 1] == z;
        }
      }
      forall i, j | 0 <= i < j < |r| ensures key(r[i]) != key(r[j]) {
        assert r[j] == rest[j - 1];
        assert r[j] in rest;
        if i > 0 { assert r[i] == rest[i - 1]; }
      }
      forall z | z in r ensures z == x || z in ys {
        if z != ys[0] {
          assert z in rest;
          if z != x { assert z in ys[1..]; }
        }
      }
    }
  }

  /** Sorting keeps keys distinct. */
  lemma {:induction false} SortByDistinct<T, K>(xs: seq<T>, order: T -> real, key: T -> K)
    requires DistinctKeys(xs, key)
    ensures DistinctKeys(SortBy(xs, order), key)
  {
    if xs != [] {
      var tail := xs[1..];
      assert DistinctKeys(tail, key) by {
        forall i, j | 0 <= i < j < |tail| ensures key(tail[i]) != key(tail[j]) {
          assert tail[i] == xs[i + 1] && tail[j] == xs[j + 1];
        }
      }
      SortByDistinct(tail, order, key);
      var st := SortBy(tail, order);
      forall y | y in st ensures key(y) != key(xs[0]) {
        assert y in multiset(st);
        var k :| 0 <= k < |tail| && tail[k] == y;
        assert xs[k + 1] == y;
      }
      InsertDistinct(xs[0], st, order, key);
    }
  }

  /** The image of a finite set under f. */
  function Image<A, B>(s: set<A>, f: A -> B): set<B>
  {
    set x | x in s :: f(x)
  }

  /** An injective image has as many members as the set it comes from. */
  lemma {:induction false} ImageCard<A, B>(s: set<A>, f: A -> B)
    requires forall x, y :: x in s && y in s && f(x) == f(y) ==> x == y
    ensures |Image(s, f)| == |s|
  {
    if s != {} {
      var x :| x in s;
      var s' := s - {x};
      ImageCard(s', f);
      assert Image(s, f) == Image(s', f) + {f(x)};
      assert f(x) !in Image(s', f);
    }
  }

  /** Induction on 0, ..., n: a property of 0 that every step k - 1 to k
      keeps holds of n. */
  lemma {:induction false} Induct(P: nat -> bool, n: nat)
    requires P(0)
    requires forall k: nat :: 0 < k <= n && P(k - 1) ==> P(k)
    ensures P(n)
  {
    if n > 0 {
      Induct(P, n - 1);
    }
  }
}
