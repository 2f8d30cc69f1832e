/** The cleaning stage: drop the row with the lowest `Average`, sort the rest
    by `Average` from highest to lowest, and renumber the index. */
module Cleaning {
  import opened Frames
  import opened Students

  /** Position of the first row holding the smallest `Average`. */
  function ArgMin(t: seq<Row>): (i: nat)
    requires |t| > 0
    ensures i < |t|
    ensures forall j :: 0 <= j < |t| ==> t[i].average <= t[j].average
    ensures forall j :: 0 <= j < i ==> t[i].average < t[j].average
  {
    if |t| == 1 then 0
    else
      var k := ArgMin(t[1..]) + 1;
      if t[0].average <= t[k].average then 0 else k
  }

  /** Row i holds the smallest `Average` and every earlier row is strictly
      higher: it is the first minimum. */
  ghost predicate FirstMinimum(t: seq<Row>, i: int)
  {
    && 0 <= i < |t|
    && (forall j :: 0 <= j < |t| ==> t[i].average <= t[j].average)
    && (forall j :: 0 <= j < i ==> t[i].average < t[j].average)
  }

  /** `df["Average"].idxmin()`: the index label of the first row with the
      smallest `Average`; pandas refuses an empty frame. */
  function IdxMin(t: seq<Row>): (l: nat)
    requires |t| > 0
    ensures HasIndex(t, l)
    ensures exists i :: FirstMinimum(t, i) && t[i].index == l
  {
    var i := ArgMin(t);
    assert HasIndex(t, t[i].index);
    t[i].index
  }

  predicate HasIndex(t: seq<Row>, l: nat)
  {
    exists i :: 0 <= i < |t| && t[i].index == l
  }

  function NotIndex(l: nat): Row -> bool
  {
    (r: Row) => r.index != l
  }

  /** `df.drop(l)`: the frame without the rows labelled `l`, or nothing when
      no row carries that label (pandas raises a KeyError). */
  function Drop(t: seq<Row>, l: nat): (r: Option<seq<Row>>)
    ensures r.Some? <==> HasIndex(t, l)
    ensures r.Some? ==> forall x :: x in r.value <==> x in t && x.index != l
    ensures r.Some? ==> forall x :: multiset(r.value)[x] == if x.index != l then multiset(t)[x] else 0
  {
    WhereMembers(t, NotIndex(l));
    WhereMultiset(t, NotIndex(l));
    if HasIndex(t, l) then Some(Where(t, NotIndex(l))) else None
  }

  /** No two rows share an index label. */
  predicate UniqueIndex(t: seq<Row>)
  {
    forall i, j :: 0 <= i < |t| && 0 <= j < |t| && t[i].index == t[j].index ==> i == j
  }

  /** No other row carries the label of row `i`. */
  predicate LabelUniqueAt(t: seq<Row>, i: nat)
    requires i < |t|
  {
    forall j :: 0 <= j < |t| && j != i ==> t[j].index != t[i].index
  }

  /** When no other row shares its label, dropping the label of row `i`
      removes exactly that row and keeps all the others, in order. */
  lemma DropAt(t: seq<Row>, i: nat)
    requires i < |t| && LabelUniqueAt(t, i)
    ensures Drop(t, t[i].index) == Some(t[..i] + t[i + 1..])
  {
    var l := t[i].index;
    assert HasIndex(t, l) by { assert t[i].index == l; }
    WhereRemovesOne(t, NotIndex(l), i);
  }

  /** Each row's `Average` is at least that of the row after it. */
  ghost predicate NonIncreasing(t: seq<Row>)
  {
    forall i :: 0 < i < |t| ==> t[i - 1].average >= t[i].average
  }

  /** Hence no row's `Average` is below that of any later row. */
  lemma {:induction false} NonIncreasingPairwise(t: seq<Row>)
    requires NonIncreasing(t)
    ensures forall i, j :: 0 <= i < j < |t| ==> t[i].average >= t[j].average
  {
    if |t| > 1 {
      NonIncreasingPairwise(t[1..]);
      forall j | 1 < j < |t| ensures t[0].average >= t[j].average {
        assert t[1..][0].average >= t[1..][j - 1].average;
      }
    }
  }

  function InsertByAverage(x: Row, s: seq<Row>): (r: seq<Row>)
    requires NonIncreasing(s)
    ensures NonIncreasing(r)
    ensures multiset(r) == multiset(s) + multiset{x}
    ensures r[0] == x || r[0] == s[0]
  {
    if s == [] || x.average >= s[0].average then
      ConsNonIncreasing(x, s);
      [x] + s
    else
      var rest := InsertByAverage(x, s[1..]);
      assert s == [s[0]] + s[1..];
      ConsNonIncreasing(s[0], rest);
      [s[0]] + rest
  }

  /** A row at or above the head of an ordered frame can be put in front. */
  lemma ConsNonIncreasing(x: Row, s: seq<Row>)
    requires NonIncreasing(s) && (s == [] || x.average >= s[0].average)
    ensures NonIncreasing([x] + s)
  {
    var r := [x] + s;
    forall i | 0 < i < |r| ensures r[i - 1].average >= r[i].average {
      if i > 1 { assert r[i - 1] == s[i - 2] && r[i] == s[i - 1]; }
    }
  }

  /** `df.sort_values(by="Average", ascending=False)`: a rearrangement of the
      rows that is non-increasing in `Average`. */
  function SortByAverageDesc(t: seq<Row>): (r: seq<Row>)
    ensures NonIncreasing(r)
    ensures multiset(r) == multiset(t)
  {
    if t == [] then []
    else
      assert t == [t[0]] + t[1..];
      InsertByAverage(t[0], SortByAverageDesc(t[1..]))
  }

  /** No two rows share an `Average`. */
  ghost predicate NoTies(t: seq<Row>)
  {
    forall i, j :: 0 <= i < j < |t| ==> t[i].average != t[j].average
  }

  lemma NonIncreasingTail(t: seq<Row>)
    requires NonIncreasing(t) && t != []
    ensures NonIncreasing(t[1..])
  {
    forall i | 0 < i < |t[1..]| ensures t[1..][i - 1].average >= t[1..][i].average {
      assert t[1..][i - 1] == t[i] && t[1..][i] == t[i + 1];
    }
  }

  lemma NoTiesTail(t: seq<Row>)
    requires NoTies(t) && t != []
    ensures NoTies(t[1..])
  {
    forall i, j | 0 <= i < j < |t[1..]| ensures t[1..][i].average != t[1..][j].average {
      assert t[1..][i] == t[i + 1] && t[1..][j] == t[j + 1];
    }
  }

  /** The first rows of two orderings of the same tie-free rows agree: both
      are the row of highest `Average`. */
  lemma SortedHeads(s: seq<Row>, u: seq<Row>)
    requires NonIncreasing(s) && NonIncreasing(u) && NoTies(s)
    requires multiset(s) == multiset(u) && s != []
    ensures u != [] && s[0] == u[0]
  {
    assert |u| == |s| by { assert |multiset(u)| == |multiset(s)|; }
    assert u[0] in multiset(s);
    var k :| 0 <= k < |s| && s[k] == u[0];
    assert s[0] in multiset(u);
    var m :| 0 <= m < |u| && u[m] == s[0];
    NonIncreasingPairwise(s);
    NonIncreasingPairwise(u);
    assert s[0].average >= s[k].average == u[0].average >= u[m].average;
    assert k == 0;
  }

  lemma MultisetTails(s: seq<Row>, u: seq<Row>)
    requires multiset(s) == multiset(u) && s != [] && u != [] && s[0] == u[0]
    ensures multiset(s[1..]) == multiset(u[1..])
  {
    assert s == [s[0]] + s[1..] && u == [u[0]] + u[1..];
    assert multiset(s[1..]) == multiset(s) - multiset{s[0]};
    assert multiset(u[1..]) == multiset(u) - multiset{s[0]};
  }

  /** Without ties there is only one way to order a frame by non-increasing
      `Average`: two such orderings of the same rows coincide. */
  lemma {:induction false} SortedUnique(s: seq<Row>, u: seq<Row>)
    requires NonIncreasing(s) && NonIncreasing(u) && NoTies(s)
    requires multiset(s) == multiset(u)
    ensures s == u
  {
    if s == [] {
      assert |multiset(u)| == 0;
    } else {
      SortedHeads(s, u);
      MultisetTails(s, u);
      NonIncreasingTail(s);
      NonIncreasingTail(u);
      NoTiesTail(s);
      SortedUnique(s[1..], u[1..]);
      assert s == [s[0]] + s[1..] && u == [u[0]] + u[1..];
    }
  }

  /** Hence, on a frame without ties, the sort's result is fixed by the rows
      alone: any arrangement that is ordered and a permutation is it. */
  lemma SortDetermined(t: seq<Row>, u: seq<Row>)
    requires NonIncreasing(u) && NoTies(u) && multiset(u) == multiset(t)
    ensures SortByAverageDesc(t) == u
  {
    SortedUnique(u, SortByAverageDesc(t));
  }

  /** Rows are labelled 0..n-1 by position. */
  predicate RangeIndexedRows(t: seq<Row>)
  {
    forall i :: 0 <= i < |t| ==> t[i].index == i
  }

  /** A row without its index label: what `reset_index(drop=True)` keeps. */
  function Unindexed(r: Row): Row
  {
    r.(index := 0)
  }

  function Contents(t: seq<Row>): seq<Row>
  {
    seq(|t|, i requires 0 <= i < |t| => Unindexed(t[i]))
  }

  /** `df.reset_index(drop=True)`: positions become the labels 0..n-1 while
      the contents and the order of the rows stay as they were. */
  function ResetIndex(t: seq<Row>): (r: seq<Row>)
    ensures RangeIndexedRows(r)
    ensures Contents(r) == Contents(t)
  {
    seq(|t|, i requires 0 <= i < |t| => t[i].(index := i))
  }

  lemma ContentsConcat(a: seq<Row>, b: seq<Row>)
    ensures Contents(a + b) == Contents(a) + Contents(b)
  {
    assert |Contents(a + b)| == |Contents(a) + Contents(b)|;
    forall k | 0 <= k < |a + b| ensures Contents(a + b)[k] == (Contents(a) + Contents(b))[k] {
      if k < |a| { assert (a + b)[k] == a[k]; } else { assert (a + b)[k] == b[k - |a|]; }
    }
  }

  /** Removing a matching element from two equal multisets of rows. */
  lemma MultisetRemove(a: seq<Row>, b: seq<Row>, j: nat)
    requires multiset(a) == multiset(b) && a != [] && j < |b| && b[j] == a[0]
    ensures multiset(a[1..]) == multiset(b[..j] + b[j + 1..])
  {
    assert b == b[..j] + [b[j]] + b[j + 1..];
    assert a == [a[0]] + a[1..];
    calc {
      multiset(a[1..]);
      multiset(a) - multiset{a[0]};
      multiset(b) - multiset{b[j]};
      multiset(b[..j]) + multiset(b[j + 1..]);
      multiset(b[..j] + b[j + 1..]);
    }
  }

  /** Rearranging the rows rearranges their contents the same way. */
  lemma {:induction false} ContentsPermutation(a: seq<Row>, b: seq<Row>)
    requires multiset(a) == multiset(b)
    ensures multiset(Contents(a)) == multiset(Contents(b))
    decreases |a|
  {
    if a != [] {
      assert a[0] in multiset(b);
      var j :| 0 <= j < |b| && b[j] == a[0];
      var rest := b[..j] + b[j + 1..];
      MultisetRemove(a, b, j);
      ContentsPermutation(a[1..], rest);
      assert b == b[..j] + [b[j]] + b[j + 1..];
      assert a == [a[0]] + a[1..];
      ContentsConcat(b[..j] + [b[j]], b[j + 1..]);
      ContentsConcat(b[..j], [b[j]]);
      ContentsConcat(b[..j], b[j + 1..]);
      ContentsConcat([a[0]], a[1..]);
    }
  }

  /** Line 76: `df.drop(df["Average"].idxmin())`. The label `idxmin` returns
      is always present, so the drop always succeeds. */
  function DropMin(t: seq<Row>): (r: seq<Row>)
    requires |t| > 0
    ensures |r| < |t|
    ensures forall x :: x in r <==> x in t && x.index != IdxMin(t)
    ensures forall x :: x in r ==> t[ArgMin(t)].average <= x.average
  {
    WhereDrops(t, NotIndex(IdxMin(t)), ArgMin(t));
    Drop(t, IdxMin(t)).value
  }

  /** When no other row shares its label, line 76 removes exactly the first
      row of minimum `Average`. */
  lemma DropMinAt(t: seq<Row>)
    requires |t| > 0 && LabelUniqueAt(t, ArgMin(t))
    ensures DropMin(t) == t[..ArgMin(t)] + t[ArgMin(t) + 1..]
  {
    DropAt(t, ArgMin(t));
    assert IdxMin(t) == t[ArgMin(t)].index;
    assert DropMin(t) == Drop(t, IdxMin(t)).value;
  }

  /** Lines 76-82 in sequence: drop the idxmin row, sort, renumber. */
  function Cleaned(t: seq<Row>): (r: seq<Row>)
    requires |t| > 0
    ensures |r| < |t|
    ensures NonIncreasing(r) && RangeIndexedRows(r)
    ensures multiset(Contents(r)) == multiset(Contents(DropMin(t)))
  {
    var s := SortByAverageDesc(DropMin(t));
    ResetKeepsOrder(s);
    ContentsPermutation(s, DropMin(t));
    ResetIndex(s)
  }

  /** With the minimum row's label unique, cleaning is the sort and renumbering
      of the frame without that row. */
  lemma CleanedUnfold(t: seq<Row>)
    requires |t| > 0 && LabelUniqueAt(t, ArgMin(t))
    ensures Cleaned(t) == ResetIndex(SortByAverageDesc(t[..ArgMin(t)] + t[ArgMin(t) + 1..]))
  {
    DropMinAt(t);
  }

  /** Renumbering keeps each row's `Average`, hence the order by `Average`. */
  lemma ResetKeepsOrder(s: seq<Row>)
    requires NonIncreasing(s)
    ensures |ResetIndex(s)| == |s|
    ensures forall k :: 0 <= k < |s| ==> ResetIndex(s)[k].average == s[k].average
    ensures NonIncreasing(ResetIndex(s))
  {
    var c := ResetIndex(s);
    assert |Contents(c)| == |Contents(s)|;
    forall k | 0 <= k < |s| ensures c[k].average == s[k].average {
      assert Contents(c)[k] == Contents(s)[k];
    }
  }

  lemma ContentsFront(x: Row, s: seq<Row>)
    ensures multiset(Contents([x] + s)) == multiset{Unindexed(x)} + multiset(Contents(s))
  {
    ContentsConcat([x], s);
    assert Contents([x]) == [Unindexed(x)];
  }

  /** Taking row `i` out and putting it in front is a rearrangement. */
  lemma MoveToFront(t: seq<Row>, i: nat, s: seq<Row>)
    requires i < |t| && multiset(s) == multiset(t[..i] + t[i + 1..])
    ensures multiset([t[i]] + s) == multiset(t)
  {
    assert t == t[..i] + [t[i]] + t[i + 1..];
    calc {
      multiset(t);
      multiset(t[..i]) + multiset{t[i]} + multiset(t[i + 1..]);
      multiset{t[i]} + multiset(t[..i] + t[i + 1..]);
      multiset([t[i]] + s);
    }
  }

  /** Rows rearranged after dropping row `i`, together with row `i`, have
      the contents of the original rows. */
  lemma DroppedContents(t: seq<Row>, i: nat, s: seq<Row>)
    requires i < |t| && multiset(s) == multiset(t[..i] + t[i + 1..])
    ensures multiset(Contents(s)) + multiset{Unindexed(t[i])} == multiset(Contents(t))
  {
    MoveToFront(t, i, s);
    ContentsPermutation(t, [t[i]] + s);
    ContentsFront(t[i], s);
  }

  /** The dropped row and the cleaned rows together are the original rows,
      labels aside. */
  lemma CleanedContents(t: seq<Row>)
    requires |t| > 0 && LabelUniqueAt(t, ArgMin(t))
    ensures multiset(Contents(Cleaned(t))) + multiset{Unindexed(t[ArgMin(t)])} == multiset(Contents(t))
  {
    DropMinContents(t);
  }

  /** Line 76 with a unique minimum label removes that row's contents once. */
  lemma DropMinContents(t: seq<Row>)
    requires |t| > 0 && LabelUniqueAt(t, ArgMin(t))
    ensures multiset(Contents(DropMin(t))) + multiset{Unindexed(t[ArgMin(t)])} == multiset(Contents(t))
  {
    DropMinAt(t);
    DroppedContents(t, ArgMin(t), DropMin(t));
  }

  /** Sorting keeps any lower bound on `Average`. */
  lemma SortedAbove(d: seq<Row>, lo: real)
    requires forall m :: 0 <= m < |d| ==> lo <= d[m].average
    ensures forall k :: 0 <= k < |SortByAverageDesc(d)| ==> lo <= SortByAverageDesc(d)[k].average
  {
    var s := SortByAverageDesc(d);
    forall k | 0 <= k < |s| ensures lo <= s[k].average {
      assert s[k] in multiset(d);
    }
  }

  /** Every row left after cleaning has an `Average` at least that of the dropped row. */
  lemma CleanedAboveMin(t: seq<Row>)
    requires |t| > 0
    ensures forall k :: 0 <= k < |Cleaned(t)| ==> t[ArgMin(t)].average <= Cleaned(t)[k].average
  {
    var lo, d := t[ArgMin(t)].average, DropMin(t);
    forall m | 0 <= m < |d| ensures lo <= d[m].average {
      assert d[m] in d;
    }
    SortedAbove(d, lo);
    ResetKeepsOrder(SortByAverageDesc(d));
  }

  /** On a frame with unique labels, cleaning removes exactly the first row
      of minimum `Average`, keeps every other row's contents, orders the
      result by non-increasing `Average` and labels it 0..n-2. */
  lemma CleanedSpec(t: seq<Row>)
    requires |t| > 0 && UniqueIndex(t)
    ensures var i, c := ArgMin(t), Cleaned(t);
      && |c| == |t| - 1
      && NonIncreasing(c)
      && RangeIndexedRows(c)
      && (forall j :: 0 <= j < i ==> t[j].average > t[i].average)
      && (forall k :: 0 <= k < |c| ==> t[i].average <= c[k].average)
      && multiset(Contents(c)) + multiset{Unindexed(t[i])} == multiset(Contents(t))
  {
    var c := Cleaned(t);
    assert LabelUniqueAt(t, ArgMin(t));
    CleanedAboveMin(t);
    CleanedContents(t);
    assert |Contents(c)| + 1 == |Contents(t)| by {
      assert |multiset(Contents(c)) + multiset{Unindexed(t[ArgMin(t)])}| == |multiset(Contents(t))|;
    }
  }
}
