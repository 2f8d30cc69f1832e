/** The script itself: the stages run in source order over one working frame
    `df`, which feature engineering extends and cleaning rebinds. */
module Analysis {
  import opened Students
  import opened Selection
  import opened Grouping
  import opened Cleaning

  /** Why a run stops early: pandas raises on ragged columns when building
      the frame and on an empty frame at `idxmin`. */
  datatype Failure = RaggedColumns | EmptyFrame

  /** Every intermediate result the script names. */
  datatype Report = Report(
    derived: seq<Row>,
    failedStudents: seq<Row>,
    lowStudyHours: seq<Row>,
    avgByGender: seq<Agg<Means>>,
    passedCount: seq<Agg<nat>>,
    highMath: seq<MathRow>,
    cleaned: seq<Row>,
    bonusFilter: seq<Row>,
    avgGender: seq<Agg<real>>)

  datatype Outcome = Completed(report: Report) | Aborted(reason: Failure)

  /** A frame built by `pd.DataFrame` and feature engineering has labels 0..n-1. */
  lemma FeaturedRangeIndexed(recs: seq<Record>)
    requires RangeIndexed(recs)
    ensures UniqueIndex(AddFeatures(recs)) && RangeIndexedRows(AddFeatures(recs))
  {
  }

  /** Lines 76-82: the working frame is rebound to the frame without its
      idxmin row, then to that frame sorted by descending `Average`, then to
      that frame renumbered. The result is ordered and labelled 0..n-1; when
      the labels are unique it has exactly one row fewer and no row below
      the dropped minimum. */
  method CleanStage(df0: seq<Row>) returns (df: seq<Row>)
    requires |df0| > 0
    ensures df == Cleaned(df0)
    ensures NonIncreasing(df) && RangeIndexedRows(df)
    ensures UniqueIndex(df0) ==>
      && |df| == |df0| - 1
      && forall k :: 0 <= k < |df| ==> df0[ArgMin(df0)].average <= df[k].average
  {
    var minLabel := IdxMin(df0);
    assert HasIndex(df0, minLabel) by { assert df0[ArgMin(df0)].index == minLabel; }
    df := Drop(df0, minLabel).value;
    df := SortByAverageDesc(df);
    df := ResetIndex(df);
    if UniqueIndex(df0) {
      CleanedSpec(df0);
    }
  }

  /** Runs the script on a dictionary of columns. Building the frame fails on
      ragged columns and `idxmin` fails on an empty frame; otherwise every
      named result is the stage applied to the frame as it stands at that
      point of the script, and the cleaned frame has one row fewer, is
      ordered by non-increasing `Average`, is labelled 0..n-2 and keeps no row
      below the dropped minimum. */
  method RunAnalysis(data: Columns) returns (out: Outcome)
    ensures out == Aborted(RaggedColumns) <==> !Rectangular(data)
    ensures out == Aborted(EmptyFrame) <==> Rectangular(data) && |data.student| == 0
    ensures out.Completed? ==>
      var r := out.report;
      && |r.derived| == |data.student| > 0
      && r.derived == AddFeatures(FromColumns(data).value)
      && r.failedStudents == FailedStudents(r.derived)
      && r.lowStudyHours == LowStudyHours(r.derived)
      && r.avgByGender == AvgByGender(r.derived)
      && r.passedCount == PassedCount(r.derived)
      && r.highMath == HighMath(r.derived)
      && r.cleaned == Cleaned(r.derived)
      && r.bonusFilter == BonusFilter(r.cleaned)
      && r.avgGender == AverageByGender(r.cleaned)
    ensures out.Completed? ==>
      var r := out.report;
      && |r.cleaned| == |r.derived| - 1
      && NonIncreasing(r.cleaned)
      && RangeIndexedRows(r.cleaned)
      && forall k :: 0 <= k < |r.cleaned| ==> r.derived[ArgMin(r.derived)].average <= r.cleaned[k].average
  {
    // line 29
    var built := FromColumns(data);
    if built.None? {
      return Aborted(RaggedColumns);
    }
    // lines 36 and 39
    var df := AddFeatures(built.value);
    FeaturedRangeIndexed(built.value);
    // lines 47, 51, 58, 62 and 69 read df without changing it
    var failedStudents := FailedStudents(df);
    var lowStudyHours := LowStudyHours(df);
    var avgByGender := AvgByGender(df);
    var passedCount := PassedCount(df);
    var highMath := HighMath(df);
    var derived := df;
    if |df| == 0 {
      return Aborted(EmptyFrame);
    }
    // lines 76-82
    df := CleanStage(df);
    // lines 89 and 96
    var bonusFilter := BonusFilter(df);
    var avgGender := AverageByGender(df);
    out := Completed(Report(derived, failedStudents, lowStudyHours, avgByGender, passedCount,
                            highMath, df, bonusFilter, avgGender));
  }
}
