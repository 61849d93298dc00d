/**
 * `Array.prototype.filter`, `find` and `some`, and the facts about them that
 * the components' list views rely on.
 */
module JsArray {
  import opened Wrappers

  /** `r` is obtained from `s` by dropping elements, keeping the order. */
  predicate IsSubsequence<T(==)>(r: seq<T>, s: seq<T>)
    decreases |s|
  {
    if r == [] then true
    else if s == [] then false
    else (r[0] == s[0] && IsSubsequence(r[1..], s[1..])) || IsSubsequence(r, s[1..])
  }

  /** `s.filter(p)`: the elements satisfying `p`, in their original order. */
  function Filter<T(==)>(s: seq<T>, p: T -> bool): (r: seq<T>)
    ensures |r| <= |s|
    ensures IsSubsequence(r, s)
    ensures forall i :: 0 <= i < |r| ==> p(r[i]) && r[i] in s
    ensures forall i :: 0 <= i < |s| ==> (s[i] in r <==> p(s[i]))
    decreases |s|
  {
    if s == [] then []
    else if p(s[0]) then [s[0]] + Filter(s[1..], p)
    else Filter(s[1..], p)
  }

  /** Filtering with a predicate that every element satisfies keeps everything. */
  lemma {:induction false} FilterAll<T>(s: seq<T>, p: T -> bool)
    requires forall i :: 0 <= i < |s| ==> p(s[i])
    ensures Filter(s, p) == s
    decreases |s|
  {
    if s != [] {
      FilterAll(s[1..], p);
    }
  }

  /** Filtering with a predicate no element satisfies gives the empty list. */
  lemma {:induction false} FilterNone<T>(s: seq<T>, p: T -> bool)
    requires forall i :: 0 <= i < |s| ==> !p(s[i])
    ensures Filter(s, p) == []
    decreases |s|
  {
    if s != [] {
      FilterNone(s[1..], p);
    }
  }

  /** A weaker predicate keeps at least as many elements. */
  lemma {:induction false} FilterMonotone<T>(s: seq<T>, p: T -> bool, q: T -> bool)
    requires forall x :: p(x) ==> q(x)
    ensures |Filter(s, p)| <= |Filter(s, q)|
    ensures IsSubsequence(Filter(s, p), Filter(s, q))
    decreases |s|
  {
    if s != [] {
      FilterMonotone(s[1..], p, q);
      if q(s[0]) && !p(s[0]) {
        SubsequenceDropFront(Filter(s, p), [s[0]], Filter(s[1..], q));
      }
    }
  }

  /** Predicates that agree on the list's elements filter it alike. */
  lemma {:induction false} FilterCongruent<T>(s: seq<T>, p: T -> bool, q: T -> bool)
    requires forall i :: 0 <= i < |s| ==> p(s[i]) == q(s[i])
    ensures Filter(s, p) == Filter(s, q)
    decreases |s|
  {
    if s != [] {
      assert forall i :: 1 <= i < |s| ==> s[1..][i - 1] == s[i];
      FilterCongruent(s[1..], p, q);
    }
  }

  /** A subsequence of `t` is a subsequence of any `u + t`. */
  lemma {:induction false} SubsequenceDropFront<T>(r: seq<T>, u: seq<T>, t: seq<T>)
    requires IsSubsequence(r, t)
    ensures IsSubsequence(r, u + t)
    decreases |u|
  {
    if u != [] {
      SubsequenceDropFront(r, u[1..], t);
      assert (u + t)[1..] == u[1..] + t;
      assert IsSubsequence(r, (u + t)[1..]);
    } else {
      assert u + t == t;
    }
  }

  /**
   * Filtering with two predicates that no element satisfies together keeps
   * at most as many elements as the list has.
   */
  lemma {:induction false} FilterDisjointLengths<T>(s: seq<T>, p: T -> bool, q: T -> bool)
    requires forall x :: !(p(x) && q(x))
    ensures |Filter(s, p)| + |Filter(s, q)| <= |s|
    decreases |s|
  {
    if s != [] {
      FilterDisjointLengths(s[1..], p, q);
    }
  }

  /** A filter keeps something exactly when some element qualifies. */
  lemma FilterNonEmpty<T>(s: seq<T>, p: T -> bool)
    ensures |Filter(s, p)| > 0 <==> exists i :: 0 <= i < |s| && p(s[i])
  {
    var r := Filter(s, p);
    if |r| > 0 {
      assert p(r[0]) && r[0] in s;
      var i :| 0 <= i < |s| && s[i] == r[0];
      assert p(s[i]);
    }
    if exists i :: 0 <= i < |s| && p(s[i]) {
      var i :| 0 <= i < |s| && p(s[i]);
      assert s[i] in r;
    }
  }

  /** Filtering a concatenation filters each part. */
  lemma {:induction false} FilterConcat<T>(a: seq<T>, b: seq<T>, p: T -> bool)
    ensures Filter(a + b, p) == Filter(a, p) + Filter(b, p)
    decreases |a|
  {
    if a == [] {
      assert a + b == b;
    } else {
      var ab := a + b;
      assert ab[0] == a[0] && ab[1..] == a[1..] + b;
      FilterConcat(a[1..], b, p);
      var rest := Filter(a[1..], p) + Filter(b, p);
      if p(a[0]) {
        assert Filter(ab, p) == [a[0]] + rest;
        assert Filter(a, p) == [a[0]] + Filter(a[1..], p);
      } else {
        assert Filter(ab, p) == rest;
      }
    }
  }

  /** `s.find(p)`: the first element satisfying `p`, or `undefined`. */
  function Find<T>(s: seq<T>, p: T -> bool): (r: Option<T>)
    ensures r.None? <==> forall i :: 0 <= i < |s| ==> !p(s[i])
    ensures r.Some? ==> exists i :: 0 <= i < |s| && s[i] == r.value && p(s[i])
                          && forall j :: 0 <= j < i ==> !p(s[j])
    decreases |s|
  {
    if s == [] then None
    else if p(s[0]) then Some(s[0])
    else
      var r := Find(s[1..], p);
      assert forall j :: 1 <= j < |s| ==> s[j] == s[1..][j - 1];
      r
  }

  /** `s.some(p)`: some element satisfies `p`. */
  predicate AnyMatch<T>(s: seq<T>, p: T -> bool)
    decreases |s|
  {
    s != [] && (p(s[0]) || AnyMatch(s[1..], p))
  }

  /** `AnyMatch` holds exactly when some position satisfies `p`. */
  lemma {:induction false} AnyMatchIff<T>(s: seq<T>, p: T -> bool)
    ensures AnyMatch(s, p) <==> exists i :: 0 <= i < |s| && p(s[i])
    decreases |s|
  {
    if s != [] {
      AnyMatchIff(s[1..], p);
      assert forall j :: 1 <= j < |s| ==> s[j] == s[1..][j - 1];
    }
  }
}
