/** `Array.prototype.sort((a, b) => key(b) - key(a))`: a stable sort, highest key first.
    ECMAScript (since 2019) requires `sort` to be stable, so among elements with equal
    keys the input order survives. The sort is modelled as an insertion sort; the lemma
    `SortedStableUnique` shows that any sorted, stable arrangement is the same sequence,
    so the choice of algorithm does not matter. */
module StableSort {
  import opened Seqs

  /** Non-increasing by `key`. */
  ghost predicate SortedDesc<T>(s: seq<T>, key: T -> real)
  {
    forall i, j :: 0 <= i < j < |s| ==> key(s[i]) >= key(s[j])
  }

  /** The elements of `s` whose key is `v`, in their order in `s`. */
  function WithKey<T>(s: seq<T>, key: T -> real, v: real): seq<T>
  {
    if s == [] then []
    else (if key(s[0]) == v then [s[0]] else []) + WithKey(s[1..], key, v)
  }

  /** Putting an element no smaller than the head in front keeps a sequence sorted. */
  lemma ConsSorted<T>(y: T, t: seq<T>, key: T -> real)
    requires SortedDesc(t, key)
    requires t != [] ==> key(y) >= key(t[0])
    ensures SortedDesc([y] + t, key)
  {
    var r := [y] + t;
    forall i, j | 0 <= i < j < |r| ensures key(r[i]) >= key(r[j]) {
      assert r[j] == t[j - 1];
      if i > 0 {
        assert r[i] == t[i - 1];
      }
    }
  }

  /** The tail of a sorted sequence is sorted, and its head is no larger than the first. */
  lemma SortedTail<T>(s: seq<T>, key: T -> real)
    requires s != [] && SortedDesc(s, key)
    ensures SortedDesc(s[1..], key)
    ensures |s| > 1 ==> key(s[0]) >= key(s[1])
  {
    var t := s[1..];
    forall i, j | 0 <= i < j < |t| ensures key(t[i]) >= key(t[j]) {
      assert t[i] == s[i + 1] && t[j] == s[j + 1];
    }
  }

  /** `WithKey` of a sequence with a given first element. */
  lemma WithKeyCons<T>(y: T, t: seq<T>, key: T -> real, v: real)
    ensures WithKey([y] + t, key, v) == (if key(y) == v then [y] else []) + WithKey(t, key, v)
  {
    assert ([y] + t)[1..] == t;
  }

  /** Puts `x` in front of the first element whose key does not exceed its own. */
  function Insert<T>(x: T, s: seq<T>, key: T -> real): (r: seq<T>)
    ensures multiset(r) == multiset(s) + multiset{x}
    ensures |r| == |s| + 1
    ensures r[0] == x || (s != [] && r[0] == s[0])
  {
    if s == [] || key(s[0]) <= key(x) then [x] + s
    else
      var rest := Insert(x, s[1..], key);
      assert multiset(s) == multiset{s[0]} + multiset(s[1..]) by {
        assert s == [s[0]] + s[1..];
      }
      [s[0]] + rest
  }

  /** Inserting into a sorted sequence keeps it sorted. */
  lemma {:induction false} InsertSorted<T>(x: T, s: seq<T>, key: T -> real)
    requires SortedDesc(s, key)
    ensures SortedDesc(Insert(x, s, key), key)
  {
    if s == [] || key(s[0]) <= key(x) {
      ConsSorted(x, s, key);
    } else {
      SortedTail(s, key);
      InsertSorted(x, s[1..], key);
      var rest := Insert(x, s[1..], key);
      assert key(s[0]) >= key(rest[0]) by {
        if rest[0] != x {
          assert rest[0] == s[1];
        }
      }
      ConsSorted(s[0], rest, key);
    }
  }

  /** The elements of `s` ordered by descending key, ties in input order. */
  function SortDesc<T>(s: seq<T>, key: T -> real): (r: seq<T>)
    ensures SortedDesc(r, key)
    ensures multiset(r) == multiset(s)
    ensures |r| == |s|
  {
    if s == [] then []
    else
      assert s == [s[0]] + s[1..];
      var t := SortDesc(s[1..], key);
      InsertSorted(s[0], t, key);
      Insert(s[0], t, key)
  }

  lemma {:induction false} WithKeyMember<T>(s: seq<T>, key: T -> real, v: real, x: T)
    ensures x in WithKey(s, key, v) <==> x in s && key(x) == v
  {
    if s != [] {
      WithKeyMember(s[1..], key, v, x);
      assert s == [s[0]] + s[1..];
    }
  }

  /** Two parts of which one is empty can be put in front of `w` in either order. */
  lemma SwapEmpty<T>(a: seq<T>, b: seq<T>, w: seq<T>)
    requires a == [] || b == []
    ensures b + (a + w) == a + (b + w)
  {
  }

  /** Inserting `x` only adds `x` in front of its equal-key elements. */
  lemma {:induction false} InsertWithKey<T>(x: T, s: seq<T>, key: T -> real, v: real)
    ensures WithKey(Insert(x, s, key), key, v)
         == (if key(x) == v then [x] else []) + WithKey(s, key, v)
  {
    if s == [] || key(s[0]) <= key(x) {
      WithKeyCons(x, s, key, v);
    } else {
      var t := s[1..];
      var rest := Insert(x, t, key);
      var xs: seq<T> := if key(x) == v then [x] else [];
      var ys: seq<T> := if key(s[0]) == v then [s[0]] else [];
      InsertWithKey(x, t, key, v);
      assert WithKey(rest, key, v) == xs + WithKey(t, key, v);
      assert Insert(x, s, key) == [s[0]] + rest;
      WithKeyCons(s[0], rest, key, v);
      assert WithKey(Insert(x, s, key), key, v) == ys + WithKey(rest, key, v);
      assert s == [s[0]] + t;
      WithKeyCons(s[0], t, key, v);
      assert WithKey(s, key, v) == ys + WithKey(t, key, v);
      assert xs == [] || ys == [];
      SwapEmpty(xs, ys, WithKey(t, key, v));
    }
  }

  /** Stability: the sort keeps the relative order of the elements of each key. */
  lemma {:induction false} SortStable<T>(s: seq<T>, key: T -> real, v: real)
    ensures WithKey(SortDesc(s, key), key, v) == WithKey(s, key, v)
  {
    if s != [] {
      SortStable(s[1..], key, v);
      InsertWithKey(s[0], SortDesc(s[1..], key), key, v);
    }
  }

  /** A non-empty sequence has an element of its first element's key. */
  lemma NonEmptyHasKey<T>(s: seq<T>, key: T -> real)
    ensures s != [] ==> WithKey(s, key, key(s[0])) != []
  {
  }

  /** The first element of a sorted sequence has the largest key. */
  lemma {:induction false} HeadHasMaxKey<T>(s: seq<T>, key: T -> real, v: real)
    requires SortedDesc(s, key)
    requires WithKey(s, key, v) != []
    ensures key(s[0]) >= v
  {
    var y := WithKey(s, key, v)[0];
    WithKeyMember(s, key, v, y);
    var j :| 0 <= j < |s| && s[j] == y;
  }

  /** Sorted sequences that agree on every key start with the same element. */
  lemma HeadsAgree<T>(r: seq<T>, t: seq<T>, key: T -> real)
    requires r != [] && t != []
    requires SortedDesc(r, key) && SortedDesc(t, key)
    requires WithKey(r, key, key(r[0])) == WithKey(t, key, key(r[0]))
    requires WithKey(r, key, key(t[0])) == WithKey(t, key, key(t[0]))
    ensures r[0] == t[0]
  {
    var k, k' := key(r[0]), key(t[0]);
    NonEmptyHasKey(r, key);
    NonEmptyHasKey(t, key);
    HeadHasMaxKey(t, key, k);
    HeadHasMaxKey(r, key, k');
    assert WithKey(r, key, k)[0] == r[0];
    assert WithKey(t, key, k)[0] == t[0];
  }

  /** Dropping the same first element keeps the agreement on a key. */
  lemma TailsAgree<T>(r: seq<T>, t: seq<T>, key: T -> real, v: real)
    requires r != [] && t != [] && r[0] == t[0]
    requires WithKey(r, key, v) == WithKey(t, key, v)
    ensures WithKey(r[1..], key, v) == WithKey(t[1..], key, v)
  {
    var head := if key(r[0]) == v then [r[0]] else [];
    assert WithKey(r, key, v)[|head|..] == WithKey(r[1..], key, v);
    assert WithKey(t, key, v)[|head|..] == WithKey(t[1..], key, v);
  }

  /** Two sorted sequences with the same elements of every key, in the same order, are
      equal: so every stable descending sort of `s` yields `SortDesc(s, key)`. */
  lemma {:induction false} SortedStableUnique<T>(r: seq<T>, t: seq<T>, key: T -> real)
    requires SortedDesc(r, key) && SortedDesc(t, key)
    requires forall v :: WithKey(r, key, v) == WithKey(t, key, v)
    ensures r == t
    decreases |r|
  {
    if r == [] {
      NonEmptyHasKey(t, key);
    } else if t == [] {
      NonEmptyHasKey(r, key);
    } else {
      HeadsAgree(r, t, key);
      forall v ensures WithKey(r[1..], key, v) == WithKey(t[1..], key, v) {
        TailsAgree(r, t, key, v);
      }
      SortedStableUnique(r[1..], t[1..], key);
      assert r == [r[0]] + r[1..] && t == [t[0]] + t[1..];
    }
  }

  /** The sort's output is characterised by being sorted and stable. */
  lemma SortCharacterised<T>(s: seq<T>, r: seq<T>, key: T -> real)
    requires SortedDesc(r, key)
    requires forall v :: WithKey(r, key, v) == WithKey(s, key, v)
    ensures r == SortDesc(s, key)
  {
    forall v ensures WithKey(r, key, v) == WithKey(SortDesc(s, key), key, v) {
      SortStable(s, key, v);
    }
    SortedStableUnique(r, SortDesc(s, key), key);
  }

  /** A new element in front of a sequence without repetitions. */
  lemma DistinctCons<T>(y: T, t: seq<T>)
    requires Distinct(t) && y !in t
    ensures Distinct([y] + t)
  {
    var r := [y] + t;
    forall i, j | 0 <= i < j < |r| ensures r[i] != r[j] {
      assert r[j] == t[j - 1];
      if i > 0 {
        assert r[i] == t[i - 1];
      }
    }
  }

  /** Inserting a new element into a sequence without repetitions keeps it so. */
  lemma {:induction false} InsertDistinct<T>(x: T, s: seq<T>, key: T -> real)
    requires Distinct(s) && x !in s
    ensures Distinct(Insert(x, s, key))
  {
    if !(s == [] || key(s[0]) <= key(x)) {
      InsertDistinct(x, s[1..], key);
      var rest := Insert(x, s[1..], key);
      assert s[0] !in rest by {
        assert s[0] !in s[1..] && s[0] != x;
        assert multiset(rest) == multiset(s[1..]) + multiset{x};
        assert s[0] !in multiset(rest);
      }
      DistinctCons(s[0], rest);
    }
  }

  /** Sorting a sequence without repetitions gives one without repetitions. */
  lemma {:induction false} SortDistinct<T>(s: seq<T>, key: T -> real)
    requires Distinct(s)
    ensures Distinct(SortDesc(s, key))
  {
    if s != [] {
      SortDistinct(s[1..], key);
      assert s[0] !in multiset(SortDesc(s[1..], key)) by {
        assert s[0] !in s[1..];
      }
      InsertDistinct(s[0], SortDesc(s[1..], key), key);
    }
  }
}
