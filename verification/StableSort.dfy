/**
 * `Array.prototype.sort` with a comparison of integer keys: the stable sort of section 23.1.3.30 of ECMA-262,
 * written as insertion, and shown to be the only stable ordered arrangement.
 */
module StableSort {
  function Insert<T>(x: T, s: seq<T>, key: T -> int): (r: seq<T>)
    ensures |r| == |s| + 1
  {
    if s == [] || key(x) <= key(s[0]) then [x] + s else [s[0]] + Insert(x, s[1..], key)
  }

  function Sort<T>(s: seq<T>, key: T -> int): (r: seq<T>)
    ensures |r| == |s|
  {
    if s == [] then [] else Insert(s[0], Sort(s[1..], key), key)
  }

  predicate Ordered<T>(s: seq<T>, key: T -> int) {
    forall i, j :: 0 <= i < j < |s| ==> key(s[i]) <= key(s[j])
  }

  /** The elements with key `k`, in order. */
  function WithKey<T>(s: seq<T>, key: T -> int, k: int): (r: seq<T>) {
    if s == [] then [] else if key(s[0]) == k then [s[0]] + WithKey(s[1..], key, k) else WithKey(s[1..], key, k)
  }

  lemma {:induction false} InsertFacts<T>(x: T, s: seq<T>, key: T -> int)
    requires Ordered(s, key)
    ensures multiset(Insert(x, s, key)) == multiset([x] + s)
    ensures Ordered(Insert(x, s, key), key)
    ensures s != [] && key(s[0]) < key(x) ==> Insert(x, s, key)[0] == s[0]
    ensures s == [] || key(x) <= key(s[0]) ==> Insert(x, s, key)[0] == x
  {
    if s != [] && key(s[0]) < key(x) {
      InsertFacts(x, s[1..], key);
      assert s == [s[0]] + s[1..];
      FirstIsLeast(x, s, Insert(x, s[1..], key), key);
    }
  }

  /** The first element of an ordered sequence comes before what is inserted behind it. */
  lemma FirstIsLeast<T>(x: T, s: seq<T>, t: seq<T>, key: T -> int)
    requires s != [] && Ordered(s, key) && key(s[0]) < key(x) && multiset(t) == multiset([x] + s[1..])
    ensures forall j :: 0 <= j < |t| ==> key(s[0]) <= key(t[j])
  {
    forall j | 0 <= j < |t| ensures key(s[0]) <= key(t[j]) {
      assert t[j] in multiset(t);
      assert t[j] in [x] + s[1..];
    }
  }

  lemma {:induction false} InsertKeeps<T>(x: T, s: seq<T>, key: T -> int, k: int)
    ensures WithKey(Insert(x, s, key), key, k) == if key(x) == k then [x] + WithKey(s, key, k) else WithKey(s, key, k)
  {
    if s == [] || key(x) <= key(s[0]) {
      assert ([x] + s)[1..] == s;
    } else {
      InsertKeeps(x, s[1..], key, k);
      assert ([s[0]] + Insert(x, s[1..], key))[1..] == Insert(x, s[1..], key);
    }
  }

  /** The result holds the same elements in key order, and equal keys keep their order. */
  lemma {:induction false} SortIsStable<T>(s: seq<T>, key: T -> int)
    ensures multiset(Sort(s, key)) == multiset(s) && Ordered(Sort(s, key), key)
    ensures forall k :: WithKey(Sort(s, key), key, k) == WithKey(s, key, k)
  {
    if s != [] {
      SortIsStable(s[1..], key);
      InsertFacts(s[0], Sort(s[1..], key), key);
      forall k ensures WithKey(Sort(s, key), key, k) == WithKey(s, key, k) {
        InsertKeeps(s[0], Sort(s[1..], key), key, k);
      }
      assert s == [s[0]] + s[1..];
    }
  }

  /** An ordered sequence is left as it is. */
  lemma {:induction false} SortOfOrdered<T>(s: seq<T>, key: T -> int)
    requires Ordered(s, key)
    ensures Sort(s, key) == s
  {
    if s != [] {
      SortOfOrdered(s[1..], key);
      assert s == [s[0]] + s[1..];
    }
  }

  lemma {:induction false} WithKeyHas<T>(s: seq<T>, key: T -> int, i: nat)
    requires i < |s|
    ensures WithKey(s, key, key(s[i])) != [] && (i == 0 ==> WithKey(s, key, key(s[i]))[0] == s[0])
  {
    if i > 0 { WithKeyHas(s[1..], key, i - 1); }
  }

  lemma {:induction false} WithKeyFrom<T>(s: seq<T>, key: T -> int, k: int)
    requires WithKey(s, key, k) != []
    ensures exists i :: 0 <= i < |s| && key(s[i]) == k
  {
    if key(s[0]) != k {
      WithKeyFrom(s[1..], key, k);
      var i :| 0 <= i < |s[1..]| && key(s[1..][i]) == k;
      assert s[i + 1] == s[1..][i];
    }
  }

  /** No other ordered sequence has the same elements, key by key. */
  lemma {:induction false} StableIsUnique<T>(s: seq<T>, t: seq<T>, key: T -> int)
    requires Ordered(s, key) && Ordered(t, key) && forall k :: WithKey(s, key, k) == WithKey(t, key, k)
    ensures s == t
  {
    if s == [] {
      if t != [] { WithKeyHas(t, key, 0); assert false; }
    } else {
      WithKeyHas(s, key, 0);
      var k := key(s[0]);
      assert WithKey(t, key, k) != [];
      HeadsAgree(s, t, key);
      forall j ensures WithKey(s[1..], key, j) == WithKey(t[1..], key, j) { TailAgrees(s, t, key, j); }
      StableIsUnique(s[1..], t[1..], key);
      assert s == [s[0]] + s[1..] && t == [t[0]] + t[1..];
    }
  }

  lemma TailAgrees<T>(s: seq<T>, t: seq<T>, key: T -> int, j: int)
    requires s != [] && t != [] && s[0] == t[0] && WithKey(s, key, j) == WithKey(t, key, j)
    ensures WithKey(s[1..], key, j) == WithKey(t[1..], key, j)
  {
    if key(s[0]) == j {
      assert WithKey(s, key, j)[1..] == WithKey(s[1..], key, j);
      assert WithKey(t, key, j)[1..] == WithKey(t[1..], key, j);
    }
  }

  lemma HeadsAgree<T>(s: seq<T>, t: seq<T>, key: T -> int)
    requires Ordered(s, key) && Ordered(t, key) && s != [] && forall k :: WithKey(s, key, k) == WithKey(t, key, k)
    ensures t != [] && s[0] == t[0]
  {
    var k := key(s[0]);
    WithKeyHas(s, key, 0);
    assert WithKey(t, key, k) != [];
    WithKeyFrom(t, key, k);
    WithKeyHas(t, key, 0);
    WithKeyFrom(s, key, key(t[0]));
    assert key(t[0]) == k;
  }

  /** The first element of the result is the first among those with the least key. */
  lemma FirstOfSort<T>(s: seq<T>, key: T -> int)
    requires s != []
    ensures exists i :: 0 <= i < |s| && s[i] == Sort(s, key)[0] && (forall j :: 0 <= j < i ==> key(s[i]) < key(s[j]))
    ensures forall j :: 0 <= j < |s| ==> key(Sort(s, key)[0]) <= key(s[j])
  {
    SortIsStable(s, key);
    var r := Sort(s, key);
    forall j | 0 <= j < |s| ensures key(r[0]) <= key(s[j]) {
      assert s[j] in multiset(s);
      assert s[j] in r;
    }
    WithKeyHas(r, key, 0);
    FirstWithKey(s, key, key(r[0]));
    var i :| 0 <= i < |s| && key(s[i]) == key(r[0]) && s[i] == WithKey(s, key, key(r[0]))[0]
      && forall j :: 0 <= j < i ==> key(s[j]) != key(r[0]);
    assert s[i] == r[0];
  }

  lemma {:induction false} FirstWithKey<T>(s: seq<T>, key: T -> int, k: int)
    requires WithKey(s, key, k) != []
    ensures exists i ::
      0 <= i < |s| && key(s[i]) == k && s[i] == WithKey(s, key, k)[0] && forall j :: 0 <= j < i ==> key(s[j]) != k
  {
    if key(s[0]) == k {
      assert s[0] == WithKey(s, key, k)[0];
    } else {
      FirstWithKey(s[1..], key, k);
      var i :| 0 <= i < |s[1..]| && key(s[1..][i]) == k && s[1..][i] == WithKey(s[1..], key, k)[0]
        && forall j :: 0 <= j < i ==> key(s[1..][j]) != k;
      assert s[i + 1] == s[1..][i];
      forall j | 0 <= j < i + 1 ensures key(s[j]) != k {
        if j > 0 { assert s[j] == s[1..][j - 1]; }
      }
    }
  }
}
