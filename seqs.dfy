/** An optional value: `None` stands for JavaScript's `null`/`NaN` where the source has no value. */
module Optional {
  datatype Option<T> = None | Some(value: T)
}

/** Sequence helpers shared by the dashboards: `Array.prototype.filter` and a left fold
    `reduce((sum, x) => sum + f(x), 0)`, both defined on the last element so that they
    unfold the way a loop over a growing prefix does. */
module Seqs {

  /** No element occurs twice. */
  ghost predicate Distinct<T>(s: seq<T>)
  {
    forall i, j :: 0 <= i < j < |s| ==> s[i] != s[j]
  }

  /** The elements of `s` that satisfy `p`, in their original order. */
  function Filter<T>(s: seq<T>, p: T -> bool): (r: seq<T>)
    ensures |r| <= |s|
  {
    if s == [] then [] else
      Filter(s[..|s| - 1], p) + (if p(s[|s| - 1]) then [s[|s| - 1]] else [])
  }

  /** `s.reduce((sum, x) => sum + f(x), 0)`: summed from the left, starting at 0. */
  function Sum<T>(s: seq<T>, f: T -> real): real
  {
    if s == [] then 0.0 else Sum(s[..|s| - 1], f) + f(s[|s| - 1])
  }

  /** Filtering splits over concatenation. */
  lemma {:induction false} FilterAppend<T>(s: seq<T>, t: seq<T>, p: T -> bool)
    ensures Filter(s + t, p) == Filter(s, p) + Filter(t, p)
    decreases |t|
  {
    if t == [] {
      assert s + t == s;
    } else {
      var t' := t[..|t| - 1];
      assert (s + t)[..|s + t| - 1] == s + t';
      FilterAppend(s, t', p);
    }
  }

  /** Filtering one more element. */
  lemma FilterSnoc<T>(s: seq<T>, x: T, p: T -> bool)
    ensures Filter(s + [x], p) == Filter(s, p) + (if p(x) then [x] else [])
  {
    assert (s + [x])[..|s|] == s;
  }

  /** An element is kept exactly when it occurs in the input and satisfies the predicate. */
  lemma {:induction false} FilterMembership<T>(s: seq<T>, p: T -> bool, x: T)
    ensures x in Filter(s, p) <==> x in s && p(x)
  {
    if s != [] {
      var s' := s[..|s| - 1];
      FilterMembership(s', p, x);
      assert s == s' + [s[|s| - 1]];
    }
  }

  /** The kept elements, with multiplicity, are those of the input that satisfy `p`. */
  lemma {:induction false} FilterMultiset<T>(s: seq<T>, p: T -> bool, x: T)
    ensures multiset(Filter(s, p))[x] == if p(x) then multiset(s)[x] else 0
  {
    if s != [] {
      var s' := s[..|s| - 1];
      FilterMultiset(s', p, x);
      assert s == s' + [s[|s| - 1]];
    }
  }

  /** A filter keeps everything exactly when every element satisfies the predicate. */
  lemma {:induction false} FilterAll<T>(s: seq<T>, p: T -> bool)
    ensures Filter(s, p) == s <==> forall i :: 0 <= i < |s| ==> p(s[i])
  {
    if s != [] {
      var s' := s[..|s| - 1];
      FilterAll(s', p);
      if Filter(s, p) == s {
        assert p(s[|s| - 1]) by {
          assert |Filter(s', p)| <= |s'|;
        }
        assert Filter(s', p) == s' by {
          assert Filter(s, p)[..|s'|] == s[..|s'|];
        }
      }
    }
  }

  /** Summing splits over concatenation. */
  lemma {:induction false} SumAppend<T>(s: seq<T>, t: seq<T>, f: T -> real)
    ensures Sum(s + t, f) == Sum(s, f) + Sum(t, f)
    decreases |t|
  {
    if t == [] {
      assert s + t == s;
    } else {
      var t' := t[..|t| - 1];
      assert (s + t)[..|s + t| - 1] == s + t';
      SumAppend(s, t', f);
    }
  }

  /** Filtering a sequence without repetitions gives one without repetitions. */
  lemma {:induction false} FilterDistinct<T>(s: seq<T>, p: T -> bool)
    requires Distinct(s)
    ensures Distinct(Filter(s, p))
  {
    if s != [] {
      var s' := s[..|s| - 1];
      FilterDistinct(s', p);
      if p(s[|s| - 1]) {
        FilterMembership(s', p, s[|s| - 1]);
      }
    }
  }
}
