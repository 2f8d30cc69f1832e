/** The non-destructive row selections of the analysis: each builds a new
    frame from `df` and keeps the original index labels. */
module Selection {
  import opened Frames
  import opened Text
  import opened Students

  predicate Failed(r: Row) { !r.passed }

  predicate LowHours(r: Row) { r.student.hoursStudied < 10 }

  predicate StrongInMath(r: Row) { r.student.math > 80 }

  predicate BonusCandidate(r: Row) { Contains(r.student.name, "F") && r.average < 85.0 }

  /** `df[df["Passed"] == False]`: exactly the rows that did not pass, each as
      often as in `df`. */
  function FailedStudents(df: seq<Row>): (r: seq<Row>)
    ensures forall x :: x in r <==> x in df && !x.passed
    ensures forall x :: multiset(r)[x] == if x.passed then 0 else multiset(df)[x]
  {
    WhereMembers(df, Failed);
    WhereMultiset(df, Failed);
    Where(df, Failed)
  }

  /** `df[df["Hours_Studied"] < 10]`: exactly the rows with fewer than ten
      hours (ten itself excluded), each as often as in `df`. */
  function LowStudyHours(df: seq<Row>): (r: seq<Row>)
    ensures forall x :: x in r <==> x in df && x.student.hoursStudied < 10
    ensures forall x :: multiset(r)[x] == if x.student.hoursStudied < 10 then multiset(df)[x] else 0
  {
    WhereMembers(df, LowHours);
    WhereMultiset(df, LowHours);
    Where(df, LowHours)
  }

  /** The two columns `["Student", "Math"]` of a row, with its label. */
  datatype MathRow = MathRow(index: nat, name: string, math: int)

  function Project(r: Row): MathRow
  {
    MathRow(r.index, r.student.name, r.student.math)
  }

  /** Column projection of a whole frame: row for row, in order. */
  function ProjectAll(t: seq<Row>): (p: seq<MathRow>)
    ensures |p| == |t|
    ensures forall i :: 0 <= i < |t| ==> p[i] == Project(t[i])
  {
    if t == [] then [] else [Project(t[0])] + ProjectAll(t[1..])
  }

  predicate MathAbove80(m: MathRow) { m.math > 80 }

  /** Selecting then projecting is projecting then selecting, because the
      mask reads only the `Math` column, which the projection keeps. */
  lemma {:induction false} SelectThenProject(df: seq<Row>)
    ensures ProjectAll(Where(df, StrongInMath)) == Where(ProjectAll(df), MathAbove80)
  {
    if df != [] {
      SelectThenProject(df[1..]);
      assert ProjectAll(df)[1..] == ProjectAll(df[1..]);
    }
  }

  /** `df.loc[df["Math"] > 80, ["Student", "Math"]]`: the projected frame
      restricted to a `Math` above 80 (80 itself excluded), in order. */
  function HighMath(df: seq<Row>): (r: seq<MathRow>)
    ensures r == Where(ProjectAll(df), MathAbove80)
    ensures forall m :: m in r <==> m in ProjectAll(df) && m.math > 80
  {
    SelectThenProject(df);
    WhereMembers(ProjectAll(df), MathAbove80);
    ProjectAll(Where(df, StrongInMath))
  }

  /** `df.loc[df["Student"].str.contains("F") & (df["Average"] < 85)]`: both
      conditions required; `Average < 85` is a score sum below 255. */
  function BonusFilter(df: seq<Row>): (r: seq<Row>)
    ensures forall x :: x in r <==> x in df && Contains(x.student.name, "F") && x.average < 85.0
    ensures forall x :: multiset(r)[x] == if BonusCandidate(x) then multiset(df)[x] else 0
    ensures forall x :: x in r && Featured(x) ==> ScoreSum(x.student) < 255 && 'F' in x.student.name
  {
    var r := Where(df, BonusCandidate);
    WhereMembers(df, BonusCandidate);
    WhereMultiset(df, BonusCandidate);
    assert forall x :: x in r && Featured(x) ==> ScoreSum(x.student) < 255 && 'F' in x.student.name by {
      forall x | x in r && Featured(x) ensures ScoreSum(x.student) < 255 && 'F' in x.student.name {
        AverageThresholds(x.student);
        ContainsChar(x.student.name, 'F');
      }
    }
    r
  }
}
