/** The stable sort behind `sort_by_key`: specified by what it keeps, so that the model does not
    depend on the algorithm the library uses. */
module StableSort {

  /** Sort key of a replay timeline: a timestamp, then an ordinal. */
  datatype Key = Key(ts: int, ord: nat)

  predicate Leq(a: Key, b: Key) {
    a.ts < b.ts || (a.ts == b.ts && a.ord <= b.ord)
  }

  predicate Sorted<T>(s: seq<T>, key: T -> Key) {
    forall i, j | 0 <= i < j < |s| :: Leq(key(s[i]), key(s[j]))
  }

  /** The elements of `s` with key `k`, in order. */
  function WithKey<T>(s: seq<T>, key: T -> Key, k: Key): (r: seq<T>)
    ensures forall x | x in r :: x in s && key(x) == k
  {
    if s == [] then []
    else
      var r := WithKey(s[..|s| - 1], key, k);
      if key(s[|s| - 1]) == k then r + [s[|s| - 1]] else r
  }

  /** `a` and `b` list the elements of each key in the same order. */
  ghost predicate SameClasses<T>(a: seq<T>, b: seq<T>, key: T -> Key) {
    forall k :: WithKey(a, key, k) == WithKey(b, key, k)
  }

  /** Inserts `x` after every element whose key is not greater. */
  function Insert<T>(s: seq<T>, x: T, key: T -> Key): (r: seq<T>)
    ensures multiset(r) == multiset(s + [x]) && |r| == |s| + 1
  {
    if s == [] || Leq(key(s[|s| - 1]), key(x)) then s + [x]
    else
      assert s == s[..|s| - 1] + [s[|s| - 1]];
      assert multiset(s + [x]) == multiset(s[..|s| - 1] + [x]) + multiset{s[|s| - 1]};
      Insert(s[..|s| - 1], x, key) + [s[|s| - 1]]
  }

  function Sort<T>(s: seq<T>, key: T -> Key): (r: seq<T>)
    ensures multiset(r) == multiset(s) && |r| == |s|
  {
    if s == [] then []
    else
      assert s == s[..|s| - 1] + [s[|s| - 1]];
      assert multiset(Sort(s[..|s| - 1], key) + [s[|s| - 1]]) == multiset(s);
      Insert(Sort(s[..|s| - 1], key), s[|s| - 1], key)
  }

  lemma MembersKept<T>(a: seq<T>, b: seq<T>)
    requires multiset(a) == multiset(b)
    ensures forall x :: x in a <==> x in b
  {
    forall x ensures x in a <==> x in b {
      assert x in a <==> x in multiset(a);
      assert x in b <==> x in multiset(b);
    }
  }

  lemma {:induction false} InsertSorted<T>(s: seq<T>, x: T, key: T -> Key)
    requires Sorted(s, key)
    ensures Sorted(Insert(s, x, key), key)
  {
    if s == [] || Leq(key(s[|s| - 1]), key(x)) {
    } else {
      var init, last := s[..|s| - 1], s[|s| - 1];
      var r := Insert(init, x, key);
      InsertSorted(init, x, key);
      forall i | 0 <= i < |r| ensures Leq(key(r[i]), key(last)) {
        assert r[i] in multiset(init + [x]);
      }
    }
  }

  lemma {:induction false} InsertKeepsInputOrder<T>(s: seq<T>, x: T, key: T -> Key, k: Key)
    ensures WithKey(Insert(s, x, key), key, k) == WithKey(s + [x], key, k)
  {
    assert (s + [x])[..|s|] == s;
    if s == [] || Leq(key(s[|s| - 1]), key(x)) {
    } else {
      var init, last := s[..|s| - 1], s[|s| - 1];
      InsertKeepsInputOrder(init, x, key, k);
      assert (Insert(init, x, key) + [last])[..|s|] == Insert(init, x, key);
      assert (init + [x])[..|init|] == init;
    }
  }

  lemma {:induction false} SortSorted<T>(s: seq<T>, key: T -> Key)
    ensures Sorted(Sort(s, key), key)
  {
    if s != [] {
      SortSorted(s[..|s| - 1], key);
      InsertSorted(Sort(s[..|s| - 1], key), s[|s| - 1], key);
    }
  }

  lemma {:induction false} SortKeepsInputOrder<T>(s: seq<T>, key: T -> Key, k: Key)
    ensures WithKey(Sort(s, key), key, k) == WithKey(s, key, k)
  {
    if s != [] {
      var init, last := s[..|s| - 1], s[|s| - 1];
      SortKeepsInputOrder(init, key, k);
      InsertKeepsInputOrder(Sort(init, key), last, key, k);
      assert (Sort(init, key) + [last])[..|init|] == Sort(init, key);
    }
  }

  /** Sorting orders by key and keeps the input order within each key. */
  lemma SortIsStable<T>(s: seq<T>, key: T -> Key)
    ensures Sorted(Sort(s, key), key)
    ensures SameClasses(Sort(s, key), s, key)
  {
    SortSorted(s, key);
    forall k ensures WithKey(Sort(s, key), key, k) == WithKey(s, key, k) {
      SortKeepsInputOrder(s, key, k);
    }
  }

  lemma LastOfKey<T>(s: seq<T>, key: T -> Key)
    requires s != []
    ensures var k := key(s[|s| - 1]);
            WithKey(s, key, k) == WithKey(s[..|s| - 1], key, k) + [s[|s| - 1]]
    ensures forall j | j != key(s[|s| - 1]) :: WithKey(s, key, j) == WithKey(s[..|s| - 1], key, j)
  {
  }

  /** The greatest key of `a` occurs in `b`, so it is at most the greatest key of `b`. */
  lemma LastKeyBound<T>(a: seq<T>, b: seq<T>, key: T -> Key)
    requires a != [] && b != [] && Sorted(b, key)
    requires WithKey(a, key, key(a[|a| - 1])) == WithKey(b, key, key(a[|a| - 1]))
    ensures Leq(key(a[|a| - 1]), key(b[|b| - 1]))
  {
  }

  lemma ShortenClasses<T>(a: seq<T>, b: seq<T>, key: T -> Key, k: Key)
    requires a != [] && b != [] && key(a[|a| - 1]) == key(b[|b| - 1])
    requires WithKey(a, key, k) == WithKey(b, key, k)
    ensures WithKey(a[..|a| - 1], key, k) == WithKey(b[..|b| - 1], key, k)
    ensures k == key(a[|a| - 1]) ==> a[|a| - 1] == b[|b| - 1]
  {
    var a', b' := WithKey(a[..|a| - 1], key, k), WithKey(b[..|b| - 1], key, k);
    if k == key(a[|a| - 1]) {
      assert (a' + [a[|a| - 1]])[..|a'|] == a' && (b' + [b[|b| - 1]])[..|b'|] == b';
      assert (a' + [a[|a| - 1]])[|a'|] == (b' + [b[|b| - 1]])[|b'|];
    }
  }

  /** Order by key plus input order within each key leave exactly one result. */
  lemma {:induction false} StableSortIsUnique<T>(a: seq<T>, b: seq<T>, key: T -> Key)
    requires Sorted(a, key) && Sorted(b, key) && SameClasses(a, b, key)
    ensures a == b
  {
    if a == [] {
      if b != [] {
        LastOfKey(b, key);
        assert false;
      }
    } else if b == [] {
      LastOfKey(a, key);
      assert false;
    } else {
      var a', b' := a[..|a| - 1], b[..|b| - 1];
      LastKeyBound(a, b, key);
      LastKeyBound(b, a, key);
      forall k ensures WithKey(a', key, k) == WithKey(b', key, k) {
        ShortenClasses(a, b, key, k);
      }
      ShortenClasses(a, b, key, key(a[|a| - 1]));
      StableSortIsUnique(a', b', key);
      assert a == a' + [a[|a| - 1]] && b == b' + [b[|b| - 1]];
    }
  }
}
