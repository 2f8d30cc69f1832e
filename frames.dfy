/** Generic operations on row tables: boolean-mask selection (`df[mask]`)
    and the arithmetic mean that pandas' `mean()` aggregations compute. */
module Frames {

  /** `t[mask]` where the mask is `p` evaluated on every row: the rows
      satisfying `p`, in their original order. */
  function Where<T>(t: seq<T>, p: T -> bool): (r: seq<T>)
    ensures |r| <= |t|
  {
    if t == [] then [] else (if p(t[0]) then [t[0]] else []) + Where(t[1..], p)
  }

  /** Exactly the rows satisfying the mask are selected. */
  lemma {:induction false} WhereMembers<T>(t: seq<T>, p: T -> bool)
    ensures forall x :: x in Where(t, p) <==> x in t && p(x)
  {
    if t != [] {
      WhereMembers(t[1..], p);
      assert t == [t[0]] + t[1..];
    }
  }

  /** Selection keeps every qualifying row as often as it occurs, and no other row. */
  lemma {:induction false} WhereMultiset<T>(t: seq<T>, p: T -> bool)
    ensures forall x :: multiset(Where(t, p))[x] == if p(x) then multiset(t)[x] else 0
  {
    if t != [] {
      WhereMultiset(t[1..], p);
      assert t == [t[0]] + t[1..];
      assert multiset(t) == multiset{t[0]} + multiset(t[1..]);
    }
  }

  /** Selection preserves relative order: the kept rows of an earlier part of
      the table come before those of a later part. */
  lemma {:induction false} WhereConcat<T>(a: seq<T>, b: seq<T>, p: T -> bool)
    ensures Where(a + b, p) == Where(a, p) + Where(b, p)
  {
    if a == [] {
      assert a + b == b;
    } else {
      assert (a + b)[0] == a[0];
      assert (a + b)[1..] == a[1..] + b;
      WhereConcat(a[1..], b, p);
      var h := if p(a[0]) then [a[0]] else [];
      assert Where(a + b, p) == h + (Where(a[1..], p) + Where(b, p));
      assert h + (Where(a[1..], p) + Where(b, p)) == (h + Where(a[1..], p)) + Where(b, p);
    }
  }

  /** A mask that is true everywhere selects the whole table. */
  lemma {:induction false} WhereKeepsAll<T>(t: seq<T>, p: T -> bool)
    requires forall i :: 0 <= i < |t| ==> p(t[i])
    ensures Where(t, p) == t
  {
    if t != [] {
      WhereKeepsAll(t[1..], p);
    }
  }

  /** A mask that is false everywhere selects nothing. */
  lemma {:induction false} WhereKeepsNone<T>(t: seq<T>, p: T -> bool)
    requires forall i :: 0 <= i < |t| ==> !p(t[i])
    ensures Where(t, p) == []
  {
    if t != [] {
      WhereKeepsNone(t[1..], p);
    }
  }

  /** A mask false at position i and true everywhere else removes exactly
      that row and keeps the others in order. */
  lemma WhereRemovesOne<T>(t: seq<T>, p: T -> bool, i: nat)
    requires i < |t| && !p(t[i])
    requires forall k :: 0 <= k < |t| && k != i ==> p(t[k])
    ensures Where(t, p) == t[..i] + t[i + 1..]
  {
    var pre, post := t[..i], t[i + 1..];
    forall k | 0 <= k < |pre| ensures p(pre[k]) {
      assert pre[k] == t[k];
    }
    forall k | 0 <= k < |post| ensures p(post[k]) {
      assert post[k] == t[i + 1 + k];
    }
    var mid := pre + [t[i]];
    assert t == mid + post;
    WhereKeepsAll(pre, p);
    WhereKeepsAll(post, p);
    WhereKeepsNone([t[i]], p);
    WhereConcat(pre, [t[i]], p);
    assert Where(mid, p) == pre;
    WhereConcat(mid, post, p);
  }

  /** A mask that is false somewhere selects strictly fewer rows. */
  lemma {:induction false} WhereDrops<T>(t: seq<T>, p: T -> bool, i: nat)
    requires i < |t| && !p(t[i])
    ensures |Where(t, p)| < |t|
  {
    if i > 0 {
      WhereDrops(t[1..], p, i - 1);
    }
  }

  /** Sum of a column of reals. */
  function Sum(xs: seq<real>): real
  {
    if xs == [] then 0.0 else xs[0] + Sum(xs[1..])
  }

  /** The arithmetic mean of a non-empty column. */
  function Mean(xs: seq<real>): real
    requires |xs| > 0
  {
    Sum(xs) / |xs| as real
  }

  lemma {:induction false} SumWithin(xs: seq<real>, lo: real, hi: real)
    requires forall i :: 0 <= i < |xs| ==> lo <= xs[i] <= hi
    ensures |xs| as real * lo <= Sum(xs) <= |xs| as real * hi
  {
    if xs != [] {
      SumWithin(xs[1..], lo, hi);
    }
  }

  /** A mean lies between any lower and upper bound of its values. */
  lemma MeanWithin(xs: seq<real>, lo: real, hi: real)
    requires |xs| > 0
    requires forall i :: 0 <= i < |xs| ==> lo <= xs[i] <= hi
    ensures lo <= Mean(xs) <= hi
  {
    SumWithin(xs, lo, hi);
    var n := |xs| as real;
    assert Mean(xs) * n == Sum(xs);
  }
}
