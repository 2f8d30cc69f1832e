/** Each stage of the script evaluated on its literal dataset of six
    students. */
module Literal {
  import opened Frames
  import opened Text
  import opened Students
  import opened Selection
  import opened Grouping
  import opened Cleaning

  function Ardi(): Row { Row(0, Student("Ardi", "M", 85, 80, 78, 12), 81.0, true) }
  function Besa(): Row { Row(1, Student("Besa", "F", 78, 82, 75, 10), 235.0 / 3.0, false) }
  function Driton(): Row { Row(2, Student("Driton", "M", 92, 90, 88, 15), 90.0, true) }
  function Elira(): Row { Row(3, Student("Elira", "F", 88, 91, 90, 14), 269.0 / 3.0, true) }
  function Florian(): Row { Row(4, Student("Florian", "M", 70, 65, 60, 8), 65.0, false) }
  function Genta(): Row { Row(5, Student("Genta", "F", 95, 98, 92, 16), 95.0, true) }

  /** The frame after feature engineering, written out. */
  function Frame(): seq<Row>
  {
    [Ardi(), Besa(), Driton(), Elira(), Florian(), Genta()]
  }

  /** The frame after feature engineering on the literal dataset. */
  function LiteralFrame(): seq<Row>
  {
    assert Rectangular(Dataset());
    AddFeatures(FromColumns(Dataset()).value)
  }

  /** Lines 20-39 on the literal dataset: averages 81, 235/3, 90, 269/3, 65
      and 95; Besa and Florian fail. */
  lemma LiteralFeatures()
    ensures LiteralFrame() == Frame()
  {
  }

  function Keep(x: Row, p: Row -> bool): seq<Row>
  {
    if p(x) then [x] else []
  }

  lemma WhereCons(x: Row, t: seq<Row>, p: Row -> bool)
    ensures Where([x] + t, p) == Keep(x, p) + Where(t, p)
  {
    assert ([x] + t)[1..] == t;
  }

  lemma WhereFive(a: Row, b: Row, c: Row, d: Row, e: Row, p: Row -> bool)
    ensures Where([a, b, c, d, e], p) == Keep(a, p) + (Keep(b, p) + (Keep(c, p) + (Keep(d, p) + Keep(e, p))))
  {
    var s4: seq<Row> := [e];
    var s3 := [d] + s4;
    var s2 := [c] + s3;
    var s1 := [b] + s2;
    assert [a, b, c, d, e] == [a] + s1;
    WhereCons(e, [], p);
    assert [e] + [] == s4;
    WhereCons(d, s4, p);
    WhereCons(c, s3, p);
    WhereCons(b, s2, p);
    WhereCons(a, s1, p);
  }

  lemma WhereSix(a: Row, b: Row, c: Row, d: Row, e: Row, f: Row, p: Row -> bool)
    ensures Where([a, b, c, d, e, f], p) == Keep(a, p) + (Keep(b, p) + (Keep(c, p) + (Keep(d, p) + (Keep(e, p) + Keep(f, p)))))
  {
    WhereFive(b, c, d, e, f, p);
    assert [a, b, c, d, e, f] == [a] + [b, c, d, e, f];
    WhereCons(a, [b, c, d, e, f], p);
  }

  /** A mask over the six rows, row by row. */
  lemma WhereOnFrame(p: Row -> bool)
    ensures Where(Frame(), p) ==
      Keep(Ardi(), p) + (Keep(Besa(), p) + (Keep(Driton(), p) + (Keep(Elira(), p) + (Keep(Florian(), p) + Keep(Genta(), p)))))
  {
    WhereSix(Ardi(), Besa(), Driton(), Elira(), Florian(), Genta(), p);
  }

  lemma FailedOnDataset()
    ensures FailedStudents(LiteralFrame()) == [Besa(), Florian()]
  {
    LiteralFeatures();
    WhereOnFrame(Failed);
    assert Keep(Ardi(), Failed) == Keep(Driton(), Failed) == Keep(Elira(), Failed) == Keep(Genta(), Failed) == [];
    assert Keep(Besa(), Failed) == [Besa()] && Keep(Florian(), Failed) == [Florian()];
    assert Where(Frame(), Failed) == [Besa(), Florian()];
  }

  lemma LowHoursOnDataset()
    ensures LowStudyHours(LiteralFrame()) == [Florian()]
  {
    LiteralFeatures();
    WhereOnFrame(LowHours);
  }

  lemma ProjectFour(a: Row, b: Row, c: Row, d: Row)
    ensures ProjectAll([a, b, c, d]) == [Project(a), Project(b), Project(c), Project(d)]
  {
    var p := ProjectAll([a, b, c, d]);
    assert p[0] == Project(a) && p[1] == Project(b) && p[2] == Project(c) && p[3] == Project(d);
  }

  lemma StrongRows()
    ensures Where(Frame(), StrongInMath) == [Ardi(), Driton(), Elira(), Genta()]
  {
    WhereOnFrame(StrongInMath);
    assert Keep(Besa(), StrongInMath) == Keep(Florian(), StrongInMath) == [];
    assert Keep(Ardi(), StrongInMath) == [Ardi()] && Keep(Driton(), StrongInMath) == [Driton()];
    assert Keep(Elira(), StrongInMath) == [Elira()] && Keep(Genta(), StrongInMath) == [Genta()];
  }

  lemma HighMathOnDataset()
    ensures HighMath(LiteralFrame()) ==
      [MathRow(0, "Ardi", 85), MathRow(2, "Driton", 92), MathRow(3, "Elira", 88), MathRow(5, "Genta", 95)]
  {
    LiteralFeatures();
    StrongRows();
    ProjectFour(Ardi(), Driton(), Elira(), Genta());
  }

  /** A frame whose genders are exactly "F" and "M" has the two keys in
      that order. */
  lemma {:induction false} GendersFM(t: seq<Row>, f: nat, m: nat)
    requires forall i :: 0 <= i < |t| ==> t[i].student.gender == "F" || t[i].student.gender == "M"
    requires f < |t| && t[f].student.gender == "F" && m < |t| && t[m].student.gender == "M"
    ensures Genders(t) == ["F", "M"]
  {
    var ks := Genders(t);
    assert "F" in ks && "M" in ks;
    assert forall x :: x in ks ==> x == "F" || x == "M";
    assert Less("F", "M") && !Less("M", "F") && !Less("F", "F") && !Less("M", "M");
    assert |ks| >= 2;
    forall i, j | 0 <= i < j < |ks| ensures ks[i] == "F" && ks[j] == "M" {
      assert Less(ks[i], ks[j]);
      assert ks[i] in ks && ks[j] in ks;
    }
    assert ks[0] == "F" && ks[1] == "M" && ks[|ks| - 1] == "M";
  }

  lemma GroupOverFM(t: seq<Row>)
    ensures GroupOver(t, ["F", "M"]) == [Agg("F", OfGender(t, "F")), Agg("M", OfGender(t, "M"))]
  {
    assert ["F", "M"][1..] == ["M"];
    assert ["M"][1..] == [];
  }

  /** Six rows gendered M, F, M, F, M, F split into two groups. */
  lemma SplitSix(a: Row, b: Row, c: Row, d: Row, e: Row, f: Row)
    requires a.student.gender == c.student.gender == e.student.gender == "M"
    requires b.student.gender == d.student.gender == f.student.gender == "F"
    ensures OfGender([a, b, c, d, e, f], "F") == [b, d, f]
    ensures OfGender([a, b, c, d, e, f], "M") == [a, c, e]
  {
    WhereSix(a, b, c, d, e, f, HasGender("F"));
    WhereSix(a, b, c, d, e, f, HasGender("M"));
    assert Keep(a, HasGender("F")) == Keep(c, HasGender("F")) == Keep(e, HasGender("F")) == [];
    assert Keep(b, HasGender("M")) == Keep(d, HasGender("M")) == Keep(f, HasGender("M")) == [];
  }

  /** Five rows gendered F, M, F, M, F split into two groups. */
  lemma SplitFive(a: Row, b: Row, c: Row, d: Row, e: Row)
    requires a.student.gender == c.student.gender == e.student.gender == "F"
    requires b.student.gender == d.student.gender == "M"
    ensures OfGender([a, b, c, d, e], "F") == [a, c, e]
    ensures OfGender([a, b, c, d, e], "M") == [b, d]
  {
    WhereFive(a, b, c, d, e, HasGender("F"));
    WhereFive(a, b, c, d, e, HasGender("M"));
    assert Keep(b, HasGender("F")) == Keep(d, HasGender("F")) == [];
    assert Keep(a, HasGender("M")) == Keep(c, HasGender("M")) == Keep(e, HasGender("M")) == [];
  }

  /** `df.groupby("Gender")` on the six rows: Besa, Elira, Genta and Ardi, Driton, Florian. */
  lemma GroupByOnFrame()
    ensures GroupBy(Frame()) == [Agg("F", [Besa(), Elira(), Genta()]), Agg("M", [Ardi(), Driton(), Florian()])]
  {
    GroupBySix(Ardi(), Besa(), Driton(), Elira(), Florian(), Genta());
  }

  lemma GroupBySix(a: Row, b: Row, c: Row, d: Row, e: Row, f: Row)
    requires a.student.gender == c.student.gender == e.student.gender == "M"
    requires b.student.gender == d.student.gender == f.student.gender == "F"
    ensures GroupBy([a, b, c, d, e, f]) == [Agg("F", [b, d, f]), Agg("M", [a, c, e])]
  {
    var t := [a, b, c, d, e, f];
    GendersFM(t, 1, 0);
    GroupOverFM(t);
    SplitSix(a, b, c, d, e, f);
  }

  lemma GroupByFive(a: Row, b: Row, c: Row, d: Row, e: Row)
    requires a.student.gender == c.student.gender == e.student.gender == "F"
    requires b.student.gender == d.student.gender == "M"
    ensures GroupBy([a, b, c, d, e]) == [Agg("F", [a, c, e]), Agg("M", [b, d])]
  {
    var t := [a, b, c, d, e];
    GendersFM(t, 0, 1);
    GroupOverFM(t);
    SplitFive(a, b, c, d, e);
  }

  lemma PassedSumsTwo(k1: string, g1: seq<Row>, k2: string, g2: seq<Row>)
    ensures PassedSums([Agg(k1, g1), Agg(k2, g2)]) == [Agg(k1, PassedSum(g1)), Agg(k2, PassedSum(g2))]
  {
    var gs := [Agg(k1, g1), Agg(k2, g2)];
    assert gs[1..] == [Agg(k2, g2)];
    assert gs[1..][1..] == [];
  }

  lemma PassedSumThree(a: Row, b: Row, c: Row)
    ensures PassedSum([a, b, c]) == (if a.passed then 1 else 0) + (if b.passed then 1 else 0) + (if c.passed then 1 else 0)
  {
    assert [a, b, c] == [a] + ([b] + [c]);
    PassedSumCons(a, [b] + [c]);
    PassedSumCons(b, [c]);
    PassedSumCons(c, []);
    assert [c] + [] == [c];
  }

  lemma PassedCountOnDataset()
    ensures PassedCount(LiteralFrame()) == [Agg("F", 2), Agg("M", 2)]
  {
    LiteralFeatures();
    GroupByOnFrame();
    PassedSumsTwo("F", [Besa(), Elira(), Genta()], "M", [Ardi(), Driton(), Florian()]);
    PassedSumThree(Besa(), Elira(), Genta());
    PassedSumThree(Ardi(), Driton(), Florian());
  }

  lemma SumThree(a: real, b: real, c: real)
    ensures Sum([a, b, c]) == a + b + c
  {
    assert [a, b, c][1..] == [b, c];
    assert [b, c][1..] == [c];
    assert [c][1..] == [];
    assert Sum([c]) == c;
    assert Sum([b, c]) == b + c;
  }

  lemma SumTwo(a: real, b: real)
    ensures Sum([a, b]) == a + b
  {
    assert [a, b][1..] == [b];
    assert [b][1..] == [];
    assert Sum([b]) == b;
  }

  lemma MeanOfThree(a: Row, b: Row, c: Row, f: Row -> real)
    ensures Mean(Column([a, b, c], f)) == (f(a) + f(b) + f(c)) / 3.0
  {
    assert Column([a, b, c], f) == [f(a), f(b), f(c)];
    SumThree(f(a), f(b), f(c));
  }

  lemma MeanOfTwo(a: Row, b: Row, f: Row -> real)
    ensures Mean(Column([a, b], f)) == (f(a) + f(b)) / 2.0
  {
    assert Column([a, b], f) == [f(a), f(b)];
    SumTwo(f(a), f(b));
  }

  /** Mean scores over two groups, entry by entry. */
  lemma MeanScoresTwo(k1: string, g1: seq<Row>, k2: string, g2: seq<Row>)
    requires g1 != [] && g2 != []
    ensures MeanScores([Agg(k1, g1), Agg(k2, g2)]) == [
      Agg(k1, Means(Mean(Column(g1, MathScore)), Mean(Column(g1, PythonScore)), Mean(Column(g1, StatisticsScore)))),
      Agg(k2, Means(Mean(Column(g2, MathScore)), Mean(Column(g2, PythonScore)), Mean(Column(g2, StatisticsScore))))]
  {
    var gs := [Agg(k1, g1), Agg(k2, g2)];
    assert gs[1..] == [Agg(k2, g2)];
    assert gs[1..][1..] == [];
  }

  lemma MeanAveragesTwo(k1: string, g1: seq<Row>, k2: string, g2: seq<Row>)
    requires g1 != [] && g2 != []
    ensures MeanAverages([Agg(k1, g1), Agg(k2, g2)]) ==
      [Agg(k1, Mean(Column(g1, AverageScore))), Agg(k2, Mean(Column(g2, AverageScore)))]
  {
    var gs := [Agg(k1, g1), Agg(k2, g2)];
    assert gs[1..] == [Agg(k2, g2)];
    assert gs[1..][1..] == [];
  }

  lemma AvgByGenderOnDataset()
    ensures AvgByGender(LiteralFrame()) == [
      Agg("F", Means(87.0, 271.0 / 3.0, 257.0 / 3.0)),
      Agg("M", Means(247.0 / 3.0, 235.0 / 3.0, 226.0 / 3.0))]
  {
    LiteralFeatures();
    GroupByOnFrame();
    var f := [Besa(), Elira(), Genta()];
    var m := [Ardi(), Driton(), Florian()];
    MeanScoresTwo("F", f, "M", m);
    MeanOfThree(Besa(), Elira(), Genta(), MathScore);
    MeanOfThree(Besa(), Elira(), Genta(), PythonScore);
    MeanOfThree(Besa(), Elira(), Genta(), StatisticsScore);
    MeanOfThree(Ardi(), Driton(), Florian(), MathScore);
    MeanOfThree(Ardi(), Driton(), Florian(), PythonScore);
    MeanOfThree(Ardi(), Driton(), Florian(), StatisticsScore);
  }

  lemma IdxMinOnDataset()
    ensures ArgMin(LiteralFrame()) == 4 && IdxMin(LiteralFrame()) == 4
  {
    LiteralFeatures();
    var t := Frame();
    var i := ArgMin(t);
    assert t[i].average <= t[4].average;
  }

  /** Removing the fifth of six rows. */
  lemma DropFifth(a: Row, b: Row, c: Row, d: Row, e: Row, f: Row)
    ensures [a, b, c, d, e, f][..4] + [a, b, c, d, e, f][5..] == [a, b, c, d, f]
  {
  }

  /** Renumbering five rows. */
  lemma ResetFive(a: Row, b: Row, c: Row, d: Row, e: Row)
    ensures ResetIndex([a, b, c, d, e]) ==
      [a.(index := 0), b.(index := 1), c.(index := 2), d.(index := 3), e.(index := 4)]
  {
  }

  /** Line 79 on the five remaining rows: no two share an `Average`, so the
      order is Genta, Driton, Elira, Ardi, Besa whatever sort pandas uses. */
  lemma SortOnDataset()
    ensures SortByAverageDesc([Ardi(), Besa(), Driton(), Elira(), Genta()]) ==
      [Genta(), Driton(), Elira(), Ardi(), Besa()]
  {
    SortFiveRows(Ardi(), Besa(), Driton(), Elira(), Genta());
  }

  lemma DecreasingFive(a: Row, b: Row, c: Row, d: Row, e: Row)
    requires a.average > b.average > c.average > d.average > e.average
    ensures NonIncreasing([a, b, c, d, e]) && NoTies([a, b, c, d, e])
  {
  }

  lemma SortFiveRows(a: Row, b: Row, d: Row, e: Row, g: Row)
    requires b.average < a.average < e.average < d.average < g.average
    ensures SortByAverageDesc([a, b, d, e, g]) == [g, d, e, a, b]
  {
    var u := [g, d, e, a, b];
    DecreasingFive(g, d, e, a, b);
    assert multiset(u) == multiset([a, b, d, e, g]);
    SortDetermined([a, b, d, e, g], u);
  }

  /** The cleaned frame: Florian dropped, the rest by descending `Average`,
      labelled 0..4. */
  lemma CleanedOnDataset()
    ensures Cleaned(LiteralFrame()) == [
      Genta().(index := 0), Driton().(index := 1), Elira().(index := 2),
      Ardi().(index := 3), Besa().(index := 4)]
  {
    IdxMinOnDataset();
    LiteralFeatures();
    var t := Frame();
    assert LabelUniqueAt(t, 4);
    CleanedUnfold(t);
    DropFifth(Ardi(), Besa(), Driton(), Elira(), Florian(), Genta());
    SortOnDataset();
    ResetFive(Genta(), Driton(), Elira(), Ardi(), Besa());
  }

  lemma NamesWithoutF()
    ensures 'F' !in "Genta" && 'F' !in "Driton" && 'F' !in "Elira" && 'F' !in "Ardi" && 'F' !in "Besa"
  {
  }

  lemma NoBonusFive(a: Row, b: Row, c: Row, d: Row, e: Row)
    requires 'F' !in a.student.name && 'F' !in b.student.name && 'F' !in c.student.name
    requires 'F' !in d.student.name && 'F' !in e.student.name
    ensures BonusFilter([a, b, c, d, e]) == []
  {
    WhereFive(a, b, c, d, e, BonusCandidate);
    ContainsChar(a.student.name, 'F');
    ContainsChar(b.student.name, 'F');
    ContainsChar(c.student.name, 'F');
    ContainsChar(d.student.name, 'F');
    ContainsChar(e.student.name, 'F');
    assert Keep(a, BonusCandidate) == Keep(b, BonusCandidate) == Keep(c, BonusCandidate) == [];
    assert Keep(d, BonusCandidate) == Keep(e, BonusCandidate) == [];
  }

  /** Line 89 on the cleaned frame: Florian, the only name with an "F", was
      dropped at line 76, so the bonus filter selects nothing. */
  lemma BonusOnDataset()
    ensures BonusFilter(Cleaned(LiteralFrame())) == []
  {
    CleanedOnDataset();
    NamesWithoutF();
    NoBonusFive(Genta().(index := 0), Driton().(index := 1), Elira().(index := 2), Ardi().(index := 3), Besa().(index := 4));
  }

  /** Line 96 on the cleaned frame: Genta, Elira, Besa and Driton, Ardi. */
  lemma AverageByGenderOnDataset()
    ensures AverageByGender(Cleaned(LiteralFrame())) == [Agg("F", 263.0 / 3.0), Agg("M", 85.5)]
  {
    CleanedOnDataset();
    AverageByGenderFive(Genta().(index := 0), Driton().(index := 1), Elira().(index := 2),
      Ardi().(index := 3), Besa().(index := 4));
  }

  /** Line 96 on any five rows whose genders alternate as the cleaned frame's do. */
  lemma AverageByGenderFive(g: Row, d: Row, e: Row, a: Row, b: Row)
    requires g.student.gender == e.student.gender == b.student.gender == "F"
    requires d.student.gender == a.student.gender == "M"
    ensures AverageByGender([g, d, e, a, b]) ==
      [Agg("F", (g.average + e.average + b.average) / 3.0), Agg("M", (d.average + a.average) / 2.0)]
  {
    GroupByFive(g, d, e, a, b);
    MeanAveragesTwo("F", [g, e, b], "M", [d, a]);
    MeanOfThree(g, e, b, AverageScore);
    MeanOfTwo(d, a, AverageScore);
  }
}
