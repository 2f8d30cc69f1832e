# Student performance analysis, modelled in Dafny

`analysisData.py` is a short pandas script over a table of six students.
It builds a data frame from a dictionary of columns (name, gender, three
scores, study hours), derives each student's `Average` and `Passed`,
selects the failing students and those who studied fewer than ten hours,
groups by gender for score means and passing counts, projects the strong
mathematicians, then cleans the frame by dropping the student with the
lowest average, sorting the rest by average from highest to lowest and
renumbering the index. It ends with a combined name/average filter and a
per-gender mean of the averages on the cleaned frame.

The model follows the same shape:

- `Frames` holds boolean-mask selection (`Where`) and the mean.
- `Text` holds the substring test behind `str.contains` and the
  lexicographic string order that pandas uses for sorted group keys.
- `Students` holds the rows, building the frame from its columns, and the
  two derived columns.
- `Selection` holds the filters and the column projection.
- `Grouping` holds the `groupby` aggregations.
- `Cleaning` holds `idxmin`/`drop`, `sort_values` and `reset_index`.
- `Analysis` is the script itself. It is a method that rebinds one working
  frame `df` stage by stage, in source order, and reports every named
  intermediate result.
- `Literal` evaluates every stage on the script's own six students.

Each row carries its pandas index label (`index`). Selections keep the
labels. `idxmin` returns a label and `drop` removes by label. Only
`reset_index` renumbers the rows. Averages are exact rationals, so "`Average`
is at least 80" is the same as "the three scores sum to at least 240".

## Model

| member | source | states |
|---|---|---|
| Students.FromColumns | analysisData.py:20-29 | the frame exists exactly when every column is as long as `Student`; it then has that many rows, labelled 0..n-1 |
| Students.ColumnsRoundTrip | analysisData.py:20-29 | building a frame loses nothing: reading its columns back gives the dictionary |
| Students.FrameRoundTrip | analysisData.py:29 | a default-indexed frame is rebuilt exactly from its own columns |
| Students.Derive | analysisData.py:36-39 | a row keeps its label and base columns; three times `Average` is the score sum; `Passed` holds exactly when that sum reaches 240 (threshold inclusive) |
| Students.AddFeatures | analysisData.py:36-39 | every row gains consistent `Average`/`Passed`, with the same length, labels and base columns |
| Students.RefreshIdempotent | analysisData.py:36-39 | recomputing the two columns leaves a row unchanged exactly when it is already consistent; doing it twice equals doing it once |
| Students.AverageThresholds | analysisData.py:39 | `Average >= 80` iff the score sum is at least 240; `Average < 85` iff it is below 255 |
| Frames.WhereMembers | analysisData.py:47 | a mask keeps exactly the rows satisfying it |
| Frames.WhereMultiset | analysisData.py:47 | a mask keeps each qualifying row as often as it occurs and drops every other |
| Frames.WhereConcat | analysisData.py:51 | selection keeps relative order: selecting from two parts is concatenating the two selections |
| Selection.FailedStudents | analysisData.py:47 | exactly the rows with `Passed` false, with multiplicity; the frame itself is untouched |
| Selection.LowStudyHours | analysisData.py:51 | exactly the rows with fewer than 10 hours (10 excluded), with multiplicity |
| Selection.SelectThenProject | analysisData.py:69 | selecting on `Math > 80` then projecting equals projecting then selecting |
| Selection.HighMath | analysisData.py:69 | the (label, `Student`, `Math`) projection restricted to `Math` above 80, in order; a projected row is kept iff its `Math` exceeds 80 |
| Selection.BonusFilter | analysisData.py:89 | a row is kept iff its name contains "F" and its `Average` is below 85, each kept row as often as in the frame; a consistent kept row has an 'F' in its name and a score sum below 255 |
| Text.ContainsOccurs | analysisData.py:89 | the substring test holds iff the pattern occurs at some position |
| Text.ContainsChar | analysisData.py:89 | a one-character pattern is contained iff that character occurs in the name |
| Text.LessTransitive | analysisData.py:58 | the key order is transitive |
| Text.LessTotal | analysisData.py:58 | any two distinct keys are ordered one way or the other |
| Grouping.Genders | analysisData.py:58 | the group keys are strictly increasing and are exactly the genders that occur |
| Grouping.GroupBy | analysisData.py:58 | one group per distinct gender, keys sorted; each group is non-empty and holds exactly that gender's rows in frame order |
| Grouping.AvgByGender | analysisData.py:58 | one entry per distinct gender, keys sorted; each entry holds the means of that gender's `Math`, `Python` and `Statistics` columns |
| Grouping.AvgByGenderWithin | analysisData.py:58 | every per-gender mean lies within any integer range that bounds all three scores over the whole frame |
| Grouping.PassedCount | analysisData.py:62 | one entry per distinct gender, keys sorted; each holds the number of that gender's passing rows |
| Grouping.PassedCountTotal | analysisData.py:62 | the per-gender passing counts add up to the number of passing rows in the frame |
| Grouping.AverageByGender | analysisData.py:96 | one entry per distinct gender, keys sorted; each entry holds the mean `Average` of that gender's rows |
| Cleaning.ArgMin | analysisData.py:76 | a position holding the smallest `Average`, with every earlier row strictly higher (the first minimum) |
| Cleaning.IdxMin | analysisData.py:76 | the returned label is carried by the first row of smallest `Average`: that row is at or below every row, and every earlier row is strictly higher |
| Cleaning.Drop | analysisData.py:76 | the drop succeeds iff some row has the label; it then keeps exactly the rows with other labels, each as often as in the frame |
| Cleaning.DropAt | analysisData.py:76 | dropping a label held only by row i removes exactly row i and keeps the rest in order |
| Cleaning.DropMin | analysisData.py:76 | the drop removes at least one row; a row survives iff it does not carry the idxmin label; no survivor is below the minimum |
| Cleaning.DropMinAt | analysisData.py:76 | with its label unique, line 76 removes exactly the first minimum row |
| Cleaning.SortByAverageDesc | analysisData.py:79 | the result is non-increasing in `Average` and a permutation of the rows |
| Cleaning.NonIncreasingPairwise | analysisData.py:79 | in the sorted frame no row is below any later row |
| Cleaning.SortedUnique | analysisData.py:79 | without ties, two orderings of the same rows that are both non-increasing coincide |
| Cleaning.SortDetermined | analysisData.py:79 | without ties, any ordered permutation of the rows is the sort's result |
| Cleaning.ResetIndex | analysisData.py:82 | rows are labelled 0..n-1 and their contents and order are unchanged |
| Cleaning.ContentsPermutation | analysisData.py:79-82 | rearranging rows rearranges their unlabelled contents the same way |
| Cleaning.Cleaned | analysisData.py:76-82 | the cleaned frame is shorter than the input, non-increasing in `Average`, labelled 0..n-1, and holds the contents of the dropped frame rearranged |
| Cleaning.CleanedSpec | analysisData.py:76-82 | with unique labels, cleaning leaves one row fewer, non-increasing and labelled 0..n-2, no row below the dropped first minimum, and every other row's contents exactly once |
| Analysis.CleanStage | analysisData.py:76-82 | the rebinding of `df` equals the cleaning function; the result is ordered and renumbered; with unique labels it has one row fewer and nothing below the minimum |
| Analysis.RunAnalysis | analysisData.py:29-96 | ragged columns and an empty frame abort; otherwise each named result is its stage applied to `df` as it stands at that line, and the cleaned frame has the properties above |
| Literal.LiteralFeatures | analysisData.py:20-39 | on the dataset the averages are 81, 235/3, 90, 269/3, 65 and 95, and Besa and Florian fail |
| Literal.FailedOnDataset | analysisData.py:47 | the failing students are Besa and Florian |
| Literal.LowHoursOnDataset | analysisData.py:51 | only Florian studied fewer than ten hours |
| Literal.AvgByGenderOnDataset | analysisData.py:58 | F means 87, 271/3, 257/3; M means 247/3, 235/3, 226/3 |
| Literal.PassedCountOnDataset | analysisData.py:62 | two students of each gender pass |
| Literal.HighMathOnDataset | analysisData.py:69 | Ardi 85, Driton 92, Elira 88 and Genta 95 are selected, with their labels |
| Literal.IdxMinOnDataset | analysisData.py:76 | the lowest average is Florian's, at label 4 |
| Literal.SortOnDataset | analysisData.py:79 | the remaining rows sort as Genta, Driton, Elira, Ardi, Besa |
| Literal.CleanedOnDataset | analysisData.py:76-82 | the cleaned frame is Genta, Driton, Elira, Ardi, Besa, labelled 0..4 |
| Literal.BonusOnDataset | analysisData.py:89 | the bonus filter is empty: Florian, the only name with an "F", was dropped at line 76 |
| Literal.AverageByGenderOnDataset | analysisData.py:96 | on the cleaned frame the mean average is 263/3 for F and 85.5 for M |

## Left out

- Printing (lines 30, 41, 48, 52, 59, 63, 70, 83, 90) is output only and is not modelled.
- The bar chart (lines 93-104) is drawing only: matplotlib is not part of this model. Only `avg_gender` (line 96) is modelled.
- Floating point: averages and means are exact reals. For integer scores of the size the dataset has (sums far below 2^53) the float sum is exact and one correctly rounded division by 3 keeps every comparison (with 80 and 85, in `idxmin` and in the sort) as the exact values give it. What the model does not reproduce is the rounded value of a mean itself, such as 263/3 at lines 58 and 96.
- Cleaning.SortByAverageDesc: the order of tied rows is not claimed. pandas' default `sort_values` uses quicksort, which is not stable, so nothing fixes the order of ties. The model sorts by insertion and promises only "ordered and a permutation". `SortedUnique` shows that without ties the order is fully determined.
- Selection.BonusFilter: `str.contains` treats its pattern as a regular expression. The literal "F" has no special characters, so it is modelled as a plain substring test; other patterns are not modelled.
- Index labels are natural numbers. Other index types and duplicate-label semantics beyond `drop` are not modelled.
- Cleaning.CleanedSpec: the exact row count and the multiset of contents assume unique labels. A frame built at line 29 always has them. With a duplicated minimum label, `drop` would remove every row carrying it, which `Drop` itself does model.
- Empty groups cannot occur, because every group has at least one row. Means of an empty column are therefore not modelled.
