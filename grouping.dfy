/** `df.groupby("Gender")` and the aggregations the analysis applies to it:
    the mean of each score, the number of passing students, and the mean
    `Average`. Group keys come out sorted, as `groupby` sorts them by default. */
module Grouping {
  import opened Frames
  import opened Text
  import opened Students

  /** One entry of a grouped result: the group key and its value. */
  datatype Agg<V> = Agg(key: string, value: V)

  function Keys<V>(aggs: seq<Agg<V>>): (ks: seq<string>)
    ensures |ks| == |aggs|
    ensures forall i :: 0 <= i < |aggs| ==> ks[i] == aggs[i].key
  {
    if aggs == [] then [] else [aggs[0].key] + Keys(aggs[1..])
  }

  /** Keys strictly increasing, hence pairwise distinct. */
  ghost predicate StrictlySorted(ks: seq<string>)
  {
    forall i, j :: 0 <= i < j < |ks| ==> Less(ks[i], ks[j])
  }

  lemma HeadNotInTail(ks: seq<string>)
    requires |ks| > 0 && StrictlySorted(ks)
    ensures ks[0] !in ks[1..]
  {
    if ks[0] in ks[1..] {
      var j :| 0 <= j < |ks[1..]| && ks[1..][j] == ks[0];
      assert Less(ks[0], ks[j + 1]);
      LessIrreflexive(ks[0]);
    }
  }

  /** Adds a key to a sorted key list unless it is already there. */
  function InsertKey(k: string, ks: seq<string>): (r: seq<string>)
    requires StrictlySorted(ks)
    ensures StrictlySorted(r)
    ensures forall x :: x in r <==> x == k || x in ks
  {
    if ks == [] then [k]
    else if k == ks[0] then ks
    else if Less(k, ks[0]) then
      assert StrictlySorted([k] + ks) by {
        forall j | 0 <= j < |ks| ensures Less(k, ks[j]) {
          if j > 0 { LessTransitive(k, ks[0], ks[j]); }
        }
      }
      [k] + ks
    else
      var rest := InsertKey(k, ks[1..]);
      assert StrictlySorted([ks[0]] + rest) by {
        LessTotal(k, ks[0]);
        forall x | x in rest ensures Less(ks[0], x) {
          if x != k {
            var j :| 0 <= j < |ks[1..]| && ks[1..][j] == x;
            assert Less(ks[0], ks[j + 1]);
          }
        }
      }
      [ks[0]] + rest
  }

  /** The distinct values of the `Gender` column, sorted. */
  function Genders(t: seq<Row>): (ks: seq<string>)
    ensures StrictlySorted(ks)
    ensures forall g :: g in ks <==> exists i :: 0 <= i < |t| && t[i].student.gender == g
  {
    if t == [] then []
    else
      var ks := InsertKey(t[0].student.gender, Genders(t[1..]));
      assert forall g :: g in ks <==> exists i :: 0 <= i < |t| && t[i].student.gender == g by {
        forall g | exists i :: 0 <= i < |t| && t[i].student.gender == g ensures g in ks {
          var i :| 0 <= i < |t| && t[i].student.gender == g;
          if i > 0 { assert t[1..][i - 1].student.gender == g; }
        }
        forall g | g in ks ensures exists i :: 0 <= i < |t| && t[i].student.gender == g {
          if g != t[0].student.gender {
            var i :| 0 <= i < |t[1..]| && t[1..][i].student.gender == g;
            assert t[i + 1].student.gender == g;
          }
        }
      }
      ks
  }

  function HasGender(g: string): Row -> bool
  {
    (r: Row) => r.student.gender == g
  }

  function GenderIn(ks: seq<string>): Row -> bool
  {
    (r: Row) => r.student.gender in ks
  }

  /** The rows of one group, in their original order. */
  function OfGender(t: seq<Row>, g: string): (rows: seq<Row>)
    ensures forall x :: x in rows <==> x in t && x.student.gender == g
  {
    WhereMembers(t, HasGender(g));
    Where(t, HasGender(g))
  }

  function GroupOver(t: seq<Row>, ks: seq<string>): (gs: seq<Agg<seq<Row>>>)
    ensures Keys(gs) == ks
    ensures forall i :: 0 <= i < |gs| ==> gs[i].value == OfGender(t, gs[i].key)
  {
    if ks == [] then [] else [Agg(ks[0], OfGender(t, ks[0]))] + GroupOver(t, ks[1..])
  }

  /** `df.groupby("Gender")`: one group per distinct gender, keys sorted, each
      group non-empty and holding exactly the rows of its gender in order. */
  function GroupBy(t: seq<Row>): (gs: seq<Agg<seq<Row>>>)
    ensures StrictlySorted(Keys(gs))
    ensures forall g :: g in Keys(gs) <==> exists i :: 0 <= i < |t| && t[i].student.gender == g
    ensures forall i :: 0 <= i < |gs| ==> gs[i].value != [] && gs[i].value == OfGender(t, gs[i].key)
  {
    var gs := GroupOver(t, Genders(t));
    assert forall i :: 0 <= i < |gs| ==> gs[i].value != [] by {
      forall i | 0 <= i < |gs| ensures gs[i].value != [] {
        assert gs[i].key in Keys(gs);
        var j :| 0 <= j < |t| && t[j].student.gender == gs[i].key;
        assert t[j] in gs[i].value;
      }
    }
    gs
  }

  /** Number of rows whose `Passed` is true: the sum of a boolean column. */
  function PassedSum(rows: seq<Row>): nat
  {
    if rows == [] then 0 else (if rows[0].passed then 1 else 0) + PassedSum(rows[1..])
  }

  function Total(aggs: seq<Agg<nat>>): nat
  {
    if aggs == [] then 0 else aggs[0].value + Total(aggs[1..])
  }

  function PassedSums(gs: seq<Agg<seq<Row>>>): (r: seq<Agg<nat>>)
    ensures Keys(r) == Keys(gs)
    ensures forall i :: 0 <= i < |r| ==> r[i].value == PassedSum(gs[i].value)
  {
    if gs == [] then [] else [Agg(gs[0].key, PassedSum(gs[0].value))] + PassedSums(gs[1..])
  }

  /** `df.groupby("Gender")["Passed"].sum()`: one entry per distinct gender,
      sorted, holding the number of passing rows of that gender. */
  function PassedCount(t: seq<Row>): (r: seq<Agg<nat>>)
    ensures StrictlySorted(Keys(r))
    ensures forall g :: g in Keys(r) <==> exists i :: 0 <= i < |t| && t[i].student.gender == g
    ensures forall i :: 0 <= i < |r| ==> r[i].value == PassedSum(OfGender(t, r[i].key))
  {
    PassedSums(GroupBy(t))
  }

  lemma PassedSumCons(x: Row, rows: seq<Row>)
    ensures PassedSum([x] + rows) == (if x.passed then 1 else 0) + PassedSum(rows)
  {
    assert ([x] + rows)[1..] == rows;
  }

  lemma {:induction false} SplitOffGender(t: seq<Row>, k: string, ks: seq<string>)
    requires k !in ks
    ensures PassedSum(Where(t, GenderIn([k] + ks)))
         == PassedSum(Where(t, HasGender(k))) + PassedSum(Where(t, GenderIn(ks)))
  {
    if t != [] {
      SplitOffGender(t[1..], k, ks);
      var x := t[0];
      var a', b', c' := Where(t[1..], GenderIn([k] + ks)), Where(t[1..], HasGender(k)), Where(t[1..], GenderIn(ks));
      if x.student.gender == k {
        PassedSumCons(x, a');
        PassedSumCons(x, b');
        assert Where(t, GenderIn(ks)) == c';
      } else if x.student.gender in ks {
        PassedSumCons(x, a');
        PassedSumCons(x, c');
        assert Where(t, HasGender(k)) == b';
      } else {
        assert Where(t, GenderIn([k] + ks)) == a';
        assert Where(t, HasGender(k)) == b';
        assert Where(t, GenderIn(ks)) == c';
      }
    }
  }

  lemma {:induction false} GroupsTotal(t: seq<Row>, gs: seq<Agg<seq<Row>>>)
    requires StrictlySorted(Keys(gs))
    requires forall i :: 0 <= i < |gs| ==> gs[i].value == OfGender(t, gs[i].key)
    ensures Total(PassedSums(gs)) == PassedSum(Where(t, GenderIn(Keys(gs))))
  {
    var ks := Keys(gs);
    if gs == [] {
      WhereKeepsNone(t, GenderIn(ks));
    } else {
      assert Keys(gs[1..]) == ks[1..];
      HeadNotInTail(ks);
      GroupsTotal(t, gs[1..]);
      assert ks == [ks[0]] + ks[1..];
      SplitOffGender(t, ks[0], ks[1..]);
      assert PassedSums(gs)[1..] == PassedSums(gs[1..]);
    }
  }

  /** Summed over all genders, the passed counts give the number of passing
      rows of the whole frame. */
  lemma PassedCountTotal(t: seq<Row>)
    ensures Total(PassedCount(t)) == PassedSum(t)
  {
    var gs := GroupBy(t);
    GroupsTotal(t, gs);
    forall i | 0 <= i < |t| ensures GenderIn(Keys(gs))(t[i]) {
      assert t[i].student.gender in Keys(gs);
    }
    WhereKeepsAll(t, GenderIn(Keys(gs)));
  }

  function MathScore(r: Row): real { r.student.math as real }

  function PythonScore(r: Row): real { r.student.python as real }

  function StatisticsScore(r: Row): real { r.student.statistics as real }

  function AverageScore(r: Row): real { r.average }

  /** The values of one numeric column, as reals. */
  function Column(rows: seq<Row>, f: Row -> real): (xs: seq<real>)
    ensures |xs| == |rows|
    ensures forall i :: 0 <= i < |rows| ==> xs[i] == f(rows[i])
  {
    seq(|rows|, i requires 0 <= i < |rows| => f(rows[i]))
  }

  /** The three per-group score means. */
  datatype Means = Means(math: real, python: real, statistics: real)

  function MeanScores(gs: seq<Agg<seq<Row>>>): (r: seq<Agg<Means>>)
    requires forall i :: 0 <= i < |gs| ==> gs[i].value != []
    ensures Keys(r) == Keys(gs)
    ensures forall i :: 0 <= i < |r| ==> r[i].value == Means(
      Mean(Column(gs[i].value, MathScore)),
      Mean(Column(gs[i].value, PythonScore)),
      Mean(Column(gs[i].value, StatisticsScore)))
  {
    if gs == [] then []
    else
      var rows := gs[0].value;
      [Agg(gs[0].key, Means(Mean(Column(rows, MathScore)), Mean(Column(rows, PythonScore)), Mean(Column(rows, StatisticsScore))))]
        + MeanScores(gs[1..])
  }

  /** `df.groupby("Gender")[["Math", "Python", "Statistics"]].mean()`. */
  function AvgByGender(t: seq<Row>): (r: seq<Agg<Means>>)
    ensures StrictlySorted(Keys(r))
    ensures forall g :: g in Keys(r) <==> exists i :: 0 <= i < |t| && t[i].student.gender == g
    ensures forall i :: 0 <= i < |r| ==>
      var rows := OfGender(t, r[i].key);
      rows != [] && r[i].value == Means(Mean(Column(rows, MathScore)), Mean(Column(rows, PythonScore)),
                                        Mean(Column(rows, StatisticsScore)))
  {
    MeanScores(GroupBy(t))
  }

  /** Every group mean of a score lies within the range that score takes
      over the whole frame. */
  lemma AvgByGenderWithin(t: seq<Row>, lo: int, hi: int)
    requires forall i :: 0 <= i < |t| ==>
      lo <= t[i].student.math <= hi && lo <= t[i].student.python <= hi && lo <= t[i].student.statistics <= hi
    ensures forall i :: 0 <= i < |AvgByGender(t)| ==>
      var m := AvgByGender(t)[i].value;
      lo as real <= m.math <= hi as real && lo as real <= m.python <= hi as real
      && lo as real <= m.statistics <= hi as real
  {
    var gs := GroupBy(t);
    forall i | 0 <= i < |gs|
      ensures var m := AvgByGender(t)[i].value;
        lo as real <= m.math <= hi as real && lo as real <= m.python <= hi as real
        && lo as real <= m.statistics <= hi as real
    {
      var rows := gs[i].value;
      forall j | 0 <= j < |rows| ensures rows[j] in t { assert rows[j] in rows; }
      MeanWithin(Column(rows, MathScore), lo as real, hi as real);
      MeanWithin(Column(rows, PythonScore), lo as real, hi as real);
      MeanWithin(Column(rows, StatisticsScore), lo as real, hi as real);
    }
  }

  function MeanAverages(gs: seq<Agg<seq<Row>>>): (r: seq<Agg<real>>)
    requires forall i :: 0 <= i < |gs| ==> gs[i].value != []
    ensures Keys(r) == Keys(gs)
    ensures forall i :: 0 <= i < |r| ==> r[i].value == Mean(Column(gs[i].value, AverageScore))
  {
    if gs == [] then []
    else [Agg(gs[0].key, Mean(Column(gs[0].value, AverageScore)))] + MeanAverages(gs[1..])
  }

  /** `df.groupby("Gender")["Average"].mean()`: one sorted entry per distinct
      gender holding the mean `Average` of its rows. */
  function AverageByGender(t: seq<Row>): (r: seq<Agg<real>>)
    ensures StrictlySorted(Keys(r))
    ensures forall g :: g in Keys(r) <==> exists i :: 0 <= i < |t| && t[i].student.gender == g
    ensures forall i :: 0 <= i < |r| ==>
      OfGender(t, r[i].key) != [] && r[i].value == Mean(Column(OfGender(t, r[i].key), AverageScore))
  {
    MeanAverages(GroupBy(t))
  }
}
