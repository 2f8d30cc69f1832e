/** The student table: its base columns, its construction from a dictionary of
    columns, and the derived `Average` and `Passed` columns. */
module Students {

  datatype Option<T> = None | Some(value: T)

  /** The six base columns of one row. */
  datatype Student = Student(name: string, gender: string, math: int, python: int, statistics: int, hoursStudied: int)

  /** A row of the freshly built frame: its index label and its base columns. */
  datatype Record = Record(index: nat, student: Student)

  /** A row after feature engineering: the base columns plus `Average` and `Passed`. */
  datatype Row = Row(index: nat, student: Student, average: real, passed: bool)

  /** The dictionary of columns a frame is built from. */
  datatype Columns = Columns(
    student: seq<string>, gender: seq<string>,
    math: seq<int>, python: seq<int>, statistics: seq<int>, hoursStudied: seq<int>)

  /** The literal dataset the analysis runs on. */
  function Dataset(): Columns
  {
    Columns(
      ["Ardi", "Besa", "Driton", "Elira", "Florian", "Genta"],
      ["M", "F", "M", "F", "M", "F"],
      [85, 78, 92, 88, 70, 95],
      [80, 82, 90, 91, 65, 98],
      [78, 75, 88, 90, 60, 92],
      [12, 10, 15, 14, 8, 16])
  }

  /** Every column has as many entries as the `Student` column. */
  predicate Rectangular(c: Columns)
  {
    var n := |c.student|;
    |c.gender| == n && |c.math| == n && |c.python| == n && |c.statistics| == n && |c.hoursStudied| == n
  }

  /** Rows are labelled 0..n-1 by position, as a default RangeIndex. */
  predicate RangeIndexed(rs: seq<Record>)
  {
    forall i :: 0 <= i < |rs| ==> rs[i].index == i
  }

  /** `pd.DataFrame(data)`: row i takes entry i of every column and index i;
      columns of different lengths are refused. */
  function FromColumns(c: Columns): (r: Option<seq<Record>>)
    ensures r.Some? <==> Rectangular(c)
    ensures r.Some? ==> |r.value| == |c.student| && RangeIndexed(r.value)
  {
    if Rectangular(c) then
      Some(seq(|c.student|, i requires 0 <= i < |c.student| =>
        Record(i, Student(c.student[i], c.gender[i], c.math[i], c.python[i], c.statistics[i], c.hoursStudied[i]))))
    else None
  }

  /** Reading the columns back out of a frame (`df["Math"]` and so on). */
  function ToColumns(rs: seq<Record>): (c: Columns)
    ensures Rectangular(c) && |c.student| == |rs|
  {
    Columns(
      seq(|rs|, i requires 0 <= i < |rs| => rs[i].student.name),
      seq(|rs|, i requires 0 <= i < |rs| => rs[i].student.gender),
      seq(|rs|, i requires 0 <= i < |rs| => rs[i].student.math),
      seq(|rs|, i requires 0 <= i < |rs| => rs[i].student.python),
      seq(|rs|, i requires 0 <= i < |rs| => rs[i].student.statistics),
      seq(|rs|, i requires 0 <= i < |rs| => rs[i].student.hoursStudied))
  }

  /** Building a frame loses nothing: its columns are the dictionary's columns. */
  lemma ColumnsRoundTrip(c: Columns)
    requires Rectangular(c)
    ensures FromColumns(c).Some? && ToColumns(FromColumns(c).value) == c
  {
  }

  /** A range-indexed frame is rebuilt exactly from its own columns. */
  lemma FrameRoundTrip(rs: seq<Record>)
    requires RangeIndexed(rs)
    ensures FromColumns(ToColumns(rs)) == Some(rs)
  {
    var r := FromColumns(ToColumns(rs));
    assert r.Some?;
    assert |r.value| == |rs|;
    forall i | 0 <= i < |rs| ensures r.value[i] == rs[i] {
      var st := rs[i].student;
      assert r.value[i] == Record(i, Student(st.name, st.gender, st.math, st.python, st.statistics, st.hoursStudied));
    }
    assert r.value == rs;
  }

  /** Sum of the three scores. */
  function ScoreSum(s: Student): int
  {
    s.math + s.python + s.statistics
  }

  /** The row mean of `Math`, `Python` and `Statistics` (`mean(axis=1)`), exact. */
  function AverageOf(s: Student): real
  {
    ScoreSum(s) as real / 3.0
  }

  /** A row is consistent with feature engineering: `Average` is the mean of
      the three scores and `Passed` is `Average >= 80`. */
  predicate Featured(r: Row)
  {
    r.average == AverageOf(r.student) && r.passed == (r.average >= 80.0)
  }

  /** Lines 36 and 39 applied to one row: `Average` is the score sum over
      three, and `Passed` holds exactly when that sum reaches 240. */
  function Derive(rec: Record): (r: Row)
    ensures r.index == rec.index && r.student == rec.student && Featured(r)
    ensures 3.0 * r.average == ScoreSum(rec.student) as real
    ensures r.passed <==> ScoreSum(rec.student) >= 240
  {
    var avg := AverageOf(rec.student);
    Row(rec.index, rec.student, avg, avg >= 80.0)
  }

  /** Feature engineering over the whole frame: every row gains its
      `Average` and `Passed`, labels and base columns untouched. */
  function AddFeatures(df: seq<Record>): (t: seq<Row>)
    ensures |t| == |df|
    ensures forall i :: 0 <= i < |t| ==> Featured(t[i]) && t[i].index == df[i].index && t[i].student == df[i].student
  {
    seq(|df|, i requires 0 <= i < |df| => Derive(df[i]))
  }

  /** Lines 36 and 39 re-run on a row that already has the derived columns:
      both are overwritten with freshly computed values. */
  function Refresh(r: Row): Row
  {
    var avg := AverageOf(r.student);
    r.(average := avg, passed := avg >= 80.0)
  }

  /** Re-deriving the features changes nothing on a featured row, and only
      on a featured row. */
  lemma RefreshIdempotent(r: Row)
    ensures Refresh(r) == r <==> Featured(r)
    ensures Refresh(Refresh(r)) == Refresh(r)
  {
  }

  /** The threshold of `Passed` is inclusive, and `Average < 85` is a
      strict bound on the score sum. */
  lemma AverageThresholds(s: Student)
    ensures AverageOf(s) >= 80.0 <==> ScoreSum(s) >= 240
    ensures AverageOf(s) < 85.0 <==> ScoreSum(s) < 255
  {
  }
}
