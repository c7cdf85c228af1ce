# mopipe core, modelled in Dafny

This project is a functional model of the core of **mopipe**, a Python
library for motion-capture pipelines. It covers these parts:

- **Recurrence quantification analysis (RQA).** `calc_rqa` delay-embeds two
  series and thresholds their pairwise distances into a recurrence matrix.
  It scans every diagonal and every column of that matrix into run-length
  histograms, then reduces the histograms to recurrence rate, determinism,
  laminarity, average diagonal and vertical line length, and two entropies.
- **The RQA segments** that wrap `calc_rqa`: auto-RQA, cross-RQA and
  windowed cross-RQA. The `CalcShift` and `ColMeans` segments are modelled
  too.
- **The segment protocol.** This is the shape predicates of
  `IOTypeBaseMixin`, the input and output gates, the validate → process →
  validate order of `Segment.__call__`, and the `Pipeline` sequence with
  its left fold `run`.
- **The experiment hierarchy.** Levels are linked by parent and child
  pointers. The model covers relevelling, top and bottom, climb and
  descend, the name and id indexes of the data a level holds, and
  running a pipeline on a level and its descendants.
- **Metadata parsing.** This is QTM header rows (`parse_metadata_row` and
  its handlers), the header scan and column naming of `MocapReader`, the
  alias-normalising `MocapMetaData`, and the `MocapMetadataEntries` enum
  lookup.
- **Bookkeeping.** The model covers the `MocapDataCollator` reader
  registry, its primary index and its `collate`, and the id and slice
  helpers of `util.py`.

Everything is a pure function over immutable datatypes. A failing call
returns only its error. Where the source changes state before it raises,
that leftover state is noted under "Left out": data appended before the
index checks, links set before relevelling, and results stored by a
lazy descent. The same goes for the one place where the source mutates
a frame it was given, `CalcShift`.

- A DataFrame is a `Table` of labelled columns of cells.
- The experiment is a `map<nat, Level>` whose keys act as object identity.
- A failing Python call is a `Result` carrying the exception class it
  raises.
- Samples and statistics are `real`, so the values the repository's tests expect are stated exactly.
  The distance test compares squared distances against the squared
  threshold, which is equivalent to the strict Euclidean test of the
  source.
- The following come in as parameters:
  - the natural logarithm;
  - the mean of a column;
  - the `int`, `float` and time-stamp parsers;
  - `pd.read_csv`;
  - the interpolator;
  - uuid strings.

## Model

| member | source | states |
|---|---|---|
| Rqa.DelayRow | src/mopipe/core/analysis/rqa.py:29-32 | Embedding row i is the stretch `x[i·tau .. i·tau + n − (dim−1)·tau)`, so every row has n − (dim−1)·tau samples |
| Rqa.Embed | src/mopipe/core/analysis/rqa.py:29-32 | The embedding has dim rows of equal length, row i starting tau·i samples in |
| Rqa.EmbedDimOne | src/mopipe/core/analysis/rqa.py:29-32 | With dim = 1 the single embedding row is the series itself |
| Rqa.SquaredDistance | src/mopipe/core/analysis/rqa.py:34 | The squared distance of two embedded points is never negative |
| Rqa.RecurrentIffCloser | src/mopipe/core/analysis/rqa.py:34-35 | A pair recurs exactly when the threshold is positive and the Euclidean distance is strictly below it |
| Rqa.RecurrenceMatrix | src/mopipe/core/analysis/rqa.py:34-35 | The matrix is M×M for the M embedded points |
| Rqa.RecurrenceCell | src/mopipe/core/analysis/rqa.py:34-35 | Cell (i, j) is the recurrence test of embedded point i of x against embedded point j of y |
| Rqa.RecurrenceFromSamples | src/mopipe/core/analysis/rqa.py:29-35 | Each cell compares the delayed samples `x[i + k·tau]` and `y[j + k·tau]` over k < dim |
| Rqa.SquaredDistanceSymmetric | src/mopipe/core/analysis/rqa.py:34 | The distance of x_i to y_j is the distance of y_j to x_i, so auto-RQA matrices are symmetric |
| Rqa.SelfRecurrence | src/mopipe/core/analysis/rqa.py:34-35 | With x = y and a positive threshold every main-diagonal cell recurs and the matrix is symmetric |
| Rqa.RecurrenceMonotone | src/mopipe/core/analysis/rqa.py:35 | Raising the threshold keeps every recurrent cell recurrent |
| Rqa.Entropy | src/mopipe/core/analysis/rqa.py:70-76 | A histogram tail from lmin with no lines has entropy 0 |
| Rqa.EntropyOneLength | src/mopipe/core/analysis/rqa.py:70-76 | When every line from lmin on has the same length, the distribution is a single point and its entropy is 0 |
| Rqa.SliceStart | src/mopipe/core/analysis/rqa.py:62-76 | The numpy slice start `h[lmin:]` always lies within the histogram, a negative lmin counting from the end |
| Rqa.RecurrenceRate | src/mopipe/core/analysis/rqa.py:60-61 | rr lies in [0, 1] and is 0 exactly when no cell is recurrent |
| Rqa.Determinism | src/mopipe/core/analysis/rqa.py:62 | det lies in [0, 1] and is 0 when there is no recurrence |
| Rqa.Laminarity | src/mopipe/core/analysis/rqa.py:63 | lam lies in [0, 1] and is 0 when there is no recurrence |
| Rqa.AvgDiagLength | src/mopipe/core/analysis/rqa.py:65-66 | The average diagonal line length lies in [0, M] |
| Rqa.AvgVertLength | src/mopipe/core/analysis/rqa.py:67-68 | The corrected average vertical line length (vertical weight over vertical count) lies in [0, M] |
| Rqa.AvgVertLengthAsWritten | src/mopipe/core/analysis/rqa.py:67-68 | As written: vertical weight divided by the diagonal tail count, 0 when that count is 0 |
| Rqa.CalcRqa | src/mopipe/core/analysis/rqa.py:6-78 | `calc_rqa`: rr, det and lam lie in [0, 1] and both average line lengths in [0, M] |
| RqaScan.RunRecords | src/mopipe/core/analysis/rqa.py:42-47 | Every run length recorded along a line is at most the line's length, so it indexes within the M+1 histogram slots |
| RqaScan.RunRecordsTotal | src/mopipe/core/analysis/rqa.py:42-47 | The records of one line sum to the number of True cells on it plus the run carried in |
| RqaScan.RunRecordsCount | src/mopipe/core/analysis/rqa.py:42-47 | One line writes exactly (#False cells) + 1 records, the edge acting as a terminator |
| RqaScan.TallyWeight | src/mopipe/core/analysis/rqa.py:38-58 | The length-weighted sum of a histogram is the sum of the records tallied into it |
| RqaScan.TallyCount | src/mopipe/core/analysis/rqa.py:38-58 | A histogram holds one count per record tallied into it |
| RqaScan.DiagonalScan | src/mopipe/core/analysis/rqa.py:39-47 | The diagonal loop over offsets −(M−1) … M−1 keeps the histogram at M + 1 slots |
| RqaScan.ColumnScan | src/mopipe/core/analysis/rqa.py:50-58 | The vertical loop keeps the histogram at M + 1 slots |
| RqaScan.DiagonalScanTotals | src/mopipe/core/analysis/rqa.py:39-47 | The diagonal scan's weight and count are the sums of the per-diagonal True and False counts |
| RqaScan.ColumnScanTotals | src/mopipe/core/analysis/rqa.py:50-58 | The vertical scan's weight and count are the sums of the per-column True and False counts |
| RqaScan.DiagonalsPartition | src/mopipe/core/analysis/rqa.py:39-47 | The diagonals partition the matrix: their True counts sum to the matrix's True count |
| RqaScan.ColumnsPartition | src/mopipe/core/analysis/rqa.py:50-58 | The columns partition the matrix: their True counts sum to the matrix's True count |
| RqaScan.DiagonalHistogramInvariants | src/mopipe/core/analysis/rqa.py:38-60 | Σ l·d[l] equals the number of True cells, and Σ d[l] equals #False + 2M − 1 |
| RqaScan.VerticalHistogramInvariants | src/mopipe/core/analysis/rqa.py:49-60 | Σ l·v[l] equals the number of True cells, and Σ v[l] equals #False + M |
| RqaProperties.CalcRqaFields | src/mopipe/core/analysis/rqa.py:60-78 | Each field of `calc_rqa`'s result is the named statistic of the recurrence matrix and the two histograms |
| RqaProperties.RecurrenceRateMonotone | src/mopipe/core/analysis/rqa.py:34-61 | rr does not decrease as the threshold grows |
| RqaProperties.EmptyMatrixStatistics | src/mopipe/core/analysis/rqa.py:60-68 | A matrix without recurrences gives rr = det = lam = 0, and both averages 0 for a positive lmin |
| RqaProperties.NonPositiveThreshold | src/mopipe/core/analysis/rqa.py:35-68 | A threshold ≤ 0 gives no recurrences, so rr = det = lam = 0 |
| RqaProperties.SelfRecurrenceRate | src/mopipe/core/analysis/rqa.py:34-61 | Auto-RQA with a positive threshold gives rr ≥ 1/M |
| RqaProperties.ShortLminSaturates | src/mopipe/core/analysis/rqa.py:62-63 | With 0 ≤ lmin ≤ 1 and some recurrence, det = lam = 1 |
| RqaProperties.CalcRqaShortLmin | src/mopipe/core/analysis/rqa.py:6-63 | Through `calc_rqa`: 0 ≤ lmin ≤ 1 and a recurrent cell give det = lam = 1 |
| RqaProperties.DeterminismAntitone | src/mopipe/core/analysis/rqa.py:62 | For 0 ≤ l1 ≤ l2, det at l2 is at most det at l1 |
| RqaProperties.CalcRqaLminAntitone | src/mopipe/core/analysis/rqa.py:6-63 | det and lam of `calc_rqa` do not increase as a non-negative lmin grows |
| RqaProperties.LminBeyondLongestLine | src/mopipe/core/analysis/rqa.py:62-76 | An lmin above M empties the tails: det, lam, both averages and both entropies are 0 |
| RqaExamples.BlocksDiagonalHistogram | tests/test_segments.py:57-61 | The diagonal histogram of the [1,1,2,2] recurrence matrix is [10, 4, 0, 0, 1] |
| RqaExamples.BlocksVerticalHistogram | tests/test_segments.py:57-61 | The vertical histogram of the [1,1,2,2] recurrence matrix is [8, 0, 4, 0, 0] |
| RqaExamples.BlocksRateAndDeterminism | tests/test_segments.py:57-61 | For [1,1,2,2] at lmin 2, rr and det are both 0.5 |
| RqaExamples.FullRate | tests/test_segments.py:64-65 | A 4×4 matrix with all 16 cells recurrent has rr 1 |
| RqaExamples.BlocksStatistics | tests/test_segments.py:57-61 | For [1,1,2,2] at lmin 2: rr 0.5, det 0.5, lam 1, average diagonal 4, corrected vertical 2, written vertical 8 |
| RqaExamples.StepsRqa | tests/test_segments.py:57-63 | `calc_rqa` of [1,1,2,2] with itself: rr 0.5 and det 0.5 at lmin 2; det 0 at lmin 5 |
| RqaExamples.StepsWideThreshold | tests/test_segments.py:64-65 | With threshold 2 every cell recurs and rr is 1 |
| RqaExamples.AvgVertLengthDefect | src/mopipe/core/analysis/rqa.py:67-68 | The written average vertical length of the [1,1,2,2] example is 8, above M = 4; the corrected one is 2 |
| RqaSegments.StatsTable | src/mopipe/segment.py:155-171 | The result frame has the seven statistic columns in fixed order, one row per record and a 0-based range index |
| RqaSegments.CalcOnCells | src/mopipe/core/analysis/rqa.py:27-34 | `calc_rqa` on two columns succeeds iff the embedding has points and every cell a delay row reads is a number; a text cell inside a delay row is then a TypeError, and the statistics are those of the numbers the rows read. Without points, all-empty delay rows give `EmbeddingError`, standing for the source's NaN-rate row; dim = 0 or delay rows of unequal length are a ValueError |
| RqaSegments.EmbeddingCases | src/mopipe/core/analysis/rqa.py:29-32 | Exactly one of: the embedding has points; every delay row is empty ((dim−1)·tau = n or ≥ 2n); or numpy refuses it, which for dim ≥ 1 means n < (dim−1)·tau < 2n |
| RqaSegments.AutoRqa | src/mopipe/segment.py:134-171 | An empty series or frame gives the empty seven-column frame; a non-empty series gives one row, `calc_rqa(x, x)`; a non-empty frame is a ValueError; any other value an AttributeError |
| RqaSegments.Pick | src/mopipe/segment.py:215-222 | An int selector picks one column by position (IndexError out of range); a str picks by label: KeyError when absent, the one column when the label is unique, and the block of every column carrying it when repeated; any other selector assigns nothing |
| RqaSegments.PickPair | src/mopipe/segment.py:215-224 | Both selections resolve, a before b, and the first failure is the error; a selector of another type is an UnboundLocalError once both resolved; single columns have the frame's row count |
| RqaSegments.CellRow | src/mopipe/core/analysis/rqa.py:29-32 | Delay row c of a column holds n − (dim−1)·tau cells, cell t being cell c·tau + t of the column |
| RqaSegments.RowIndex | src/mopipe/core/analysis/rqa.py:29-32 | Every sample a delay row reads lies inside the column |
| RqaSegments.NumericEmbeds | src/mopipe/core/analysis/rqa.py:29-34 | A column of numbers passes the embedded-cell test for every embedding that has points |
| RqaSegments.CalcOnCellsReadsEmbedding | src/mopipe/core/analysis/rqa.py:29-34 | Two pairs of columns whose delay rows agree give the same `calc_rqa` outcome, whatever the cells between the rows hold |
| RqaSegments.SameEmbedding | src/mopipe/core/analysis/rqa.py:29-32 | Columns with the same numeric delay rows have the same delay matrix |
| RqaSegments.CalcOnPicked | src/mopipe/segment.py:215-224 | A block on either side is a ValueError whatever the parameters; two single columns give `calc_rqa` of their numbers exactly when that succeeds |
| RqaSegments.CrossRqa | src/mopipe/segment.py:177-225 | An empty frame gives the empty result; otherwise the first selection error, or one row of `calc_rqa` on the two selections, or its error |
| RqaSegments.CrossRqaOk | src/mopipe/segment.py:177-225 | On a non-empty frame cross-RQA succeeds iff both selectors pick one column, the embedding has points and every cell the delay rows read is a number; the result is then the one-row frame of `calc_rqa` |
| RqaSegments.RepeatedLabelRaises | src/mopipe/segment.py:218-225 | A str selector naming a repeated label makes cross-RQA a ValueError once the other selector resolves |
| RqaSegments.CrossWithItself | src/mopipe/segment.py:180-224 | Cross-RQA of a column with itself is auto-RQA of that column as a series |
| RqaSegments.WindowStarts | src/mopipe/segment.py:282 | The starts are `range(0, n − window + 1, step)`, and a zero step is a ValueError |
| RqaSegments.PyRangeUp | src/mopipe/segment.py:282 | With a positive step, `range` counts off start, start + step, … and stops at the first value not below stop |
| RqaSegments.WindowCount | src/mopipe/segment.py:282 | With a positive step the k-th start is k·step, every window fits in the n samples, and one more window would not |
| RqaSegments.Collect | src/mopipe/segment.py:282-283 | The windows are computed in order; the result holds one value per start, or the first failure |
| RqaSegments.WindowedRqaRows | src/mopipe/segment.py:271-283 | An empty frame gives no rows; otherwise the first selection error, a ValueError for step 0, or one statistics row per window start in increasing order, or the first window's failure |
| RqaSegments.WindowedCrossRqa | src/mopipe/segment.py:260-284 | The windowed result is the seven-column statistics frame, indexed 0, 1, ..., holding one row per window, and fails exactly when the window rows fail, with their error |
| RqaSegments.WindowedRowsFit | src/mopipe/segment.py:282 | With a positive step there is one row per window that fits: the last window ends inside the frame and one more step would leave it |
| RqaSegments.WindowedCell | src/mopipe/segment.py:282-283 | Cell (k, c) of the windowed frame is statistic c of `calc_rqa` on rows [k·step, k·step + window) of both single columns |
| RqaSegments.WindowTooLongIsEmpty | src/mopipe/segment.py:282 | A window longer than the frame yields the empty seven-column frame |
| RqaSegments.WindowedRow | src/mopipe/segment.py:282-283 | Row k exists only when both selectors picked one column; it is `calc_rqa` on the slices [w, w + window) of both columns, w = k·step, which lie inside the frame |
| RqaSegments.WindowedRowAt | src/mopipe/segment.py:282-283 | Row k is the window statistics at the k-th start, k·step, and that window ends inside the frame |
| RqaSegments.FlatWindow | src/mopipe/segment.py:283 | A window that yields statistics is one of two single columns, and inside the frame it is their plain slice |
| RqaSegments.WindowedRepeatedLabelRaises | src/mopipe/segment.py:275-283 | A repeated label makes the windowed segment a ValueError as soon as one window fits |
| RqaSegments.AutoRqaSegment | src/mopipe/segment.py:131 | The auto-RQA segment takes a univariate input and gives an any-series output |
| RqaSegments.WindowedSegment | src/mopipe/segment.py:228 | The windowed segment takes a multivariate input and gives an any-series output |
| RqaSegments.WindowTooLongRaises | src/mopipe/core/segments/io.py:67-72 | Through `__call__`, a window longer than the data is a ValueError, because the output gate refuses the zero-row result |
| RqaSegments.AutoRqaEmptyRaises | src/mopipe/core/segments/io.py:67-72 | Through `__call__`, auto-RQA of an empty series is a ValueError: the univariate gate needs two rows |
| SegmentExamples.AutoRqaSteps | tests/test_segments.py:57-65 | RQAStats on [1,1,2,2] is one row with rr 0.5 and det 0.5, and det 0 with lmin 5 |
| SegmentExamples.CrossRqaExample | tests/test_segments.py:73-82 | CrossRQAStats gives rr 0.25 for a against b, by position or by label, and 0.5 for a against itself |
| SegmentExamples.WindowedExample | tests/test_segments.py:90-96 | Window 4, step 2 on eight rows gives three rows, for the windows at 0, 2 and 4 |
| SegmentExamples.WindowedRates | tests/test_segments.py:90-96 | The three windows have rr 0.25, 0.25 and 0 |
| SegmentExamples.ColMeansRepeatedLabel | src/mopipe/segment.py:66-67 | With the label A on two columns, `ColMeans(col="A")` gives both means, [2, 5] |
| SegmentExamples.CalcShiftRepeatedLabel | src/mopipe/segment.py:97-108 | Shifting the repeated label A is a ValueError |
| SegmentExamples.CrossRqaRepeatedLabel | src/mopipe/segment.py:218-225 | Cross-RQA of the repeated label A against column 0 is a ValueError |
| SegmentExamples.GapTextIsNeverRead | src/mopipe/core/analysis/rqa.py:29-34 | On [1, "a", "b", 2] with dim 2 and tau 3 the text lies between the delay rows, so the column computes, exactly as [1, 5, 7, 2] does; with tau 1 the rows read the text and the result is a TypeError |
| SegmentExamples.ShiftDiffEdges | src/mopipe/segment.py:106-107 | A shift of 3 on two samples gives three zeros, a shift of 2 on none gives two zeros, shift 0 on one sample gives the empty array and shift 0 on two samples is a ValueError |
| SegmentExamples.CalcShiftEdges | src/mopipe/segment.py:106-108 | A shift longer than the frame is a ValueError at the assignment, and a positive shift on a frame without rows is the growth case |
| SegmentExamples.EmbeddingOutcomes | src/mopipe/core/analysis/rqa.py:29-32 | On three samples: dim 4, tau 1 and dim 7, tau 1 empty every delay row; dim 3, tau 2 and dim 0 are ValueErrors |
| Transforms.ShiftDiff | src/mopipe/segment.py:106-107 | The numpy expression fails (ValueError) iff shift < 0, or shift = 0 on two or more samples; shift 0 otherwise gives the empty array, and shift > 0 gives max(n, shift) entries, 0 below shift and x[i] − x[i−shift] from there on |
| Transforms.ShiftDiffFits | src/mopipe/segment.py:106-108 | The differences have the column's length, so the assignment fits, iff 0 < shift ≤ n or the column is empty with shift 0 |
| Transforms.UnshiftRecovers | src/mopipe/segment.py:106-108 | Any lagged differences of a series, together with its first `shift` values, rebuild the series |
| Transforms.UnshiftInverts | src/mopipe/segment.py:106-108 | The shifted difference loses nothing: the first `shift` samples and the differences rebuild the series |
| Transforms.ShiftName | src/mopipe/segment.py:106 | The new label is the column's label followed by the six characters of `_shift` |
| Transforms.ShiftedColumn | src/mopipe/segment.py:97-108 | An absent label is a KeyError; a repeated label, or one text column, is a ValueError; a numeric column succeeds iff the differences fit the frame, giving the `_shift` column with the frame's row count; on a frame without rows a positive shift is `GrowthError` (pandas grows the frame), and any other misfit is a ValueError |
| Tables.Reals | src/mopipe/core/analysis/rqa.py:29-34 | The numbers of a column that may hold text: one per cell, each number in its place, and exactly the column's numbers when it holds no text |
| Tables.SelectNamed | src/mopipe/segment.py:98 | `x[name]` succeeds iff some column carries the label (KeyError otherwise); it is the one column iff no other column carries the label, else all of them, two or more |
| Tables.ColumnsNamedMembers | src/mopipe/segment.py:67 | The columns a label selects are columns of the frame, and every column carrying the label is among them |
| Tables.SetColumn | src/mopipe/segment.py:108 | Assigning a label replaces every column carrying it and keeps the labels; a new label is appended; the index is kept |
| Tables.SetReadsBack | src/mopipe/segment.py:108 | After assigning a label, every column it selects holds the assigned cells, and a new label selects exactly one column |
| Tables.SetKeepsOthers | src/mopipe/segment.py:108 | Assigning one label leaves the selection of every other label unchanged |
| Transforms.ShiftColumns | src/mopipe/segment.py:95-109 | Unselected columns are kept, one `_shift` label per selected column is present, the index is unchanged, and a failing first column is the error |
| Transforms.CalcShift | src/mopipe/segment.py:95-109 | `cols=None` shifts every column; the row count is unchanged |
| Transforms.ShiftAppends | src/mopipe/segment.py:95-109 | When every selected label names one numeric column and no `_shift` label is taken, the result is the input's columns followed by exactly one shifted column per selected name, in order |
| Transforms.ShiftedAllAt | src/mopipe/segment.py:95-109 | The k-th new column is the shifted column of the k-th selected name, and all succeed iff each does |
| Transforms.NumericColumns | src/mopipe/segment.py:69 | The numeric columns, in order; all of them when every column is numeric |
| Transforms.LabelSlice | src/mopipe/segment.py:62-63 | A label slice of the columns runs from the start label's left bound to the stop label's right bound, as for rows; a bound that cannot be placed is a KeyError |
| Transforms.LabelSliceUnique | src/mopipe/segment.py:62-63 | When both labels occur once, the label slice is the positional slice through the stop column, both ends included |
| Transforms.MeansOf | src/mopipe/segment.py:55-71 | One mean per column, in order; a non-numeric column is a TypeError |
| Transforms.MeanOf | src/mopipe/segment.py:69-71 | A numeric column gives its mean; a column holding text is a TypeError |
| Transforms.ColMeans | src/mopipe/segment.py:55-71 | An empty frame gives no means; an int or int slice selects by position, a str slice by label bounds; a str gives one mean for a unique label and one mean per column for a repeated label (KeyError when absent); None averages the numeric columns; any other selector is a ValueError |
| Transforms.AllEqualsFullSlice | src/mopipe/segment.py:55-71 | On an all-numeric frame, `col=None` and `col=slice(0, ncols)` give the same means |
| Transforms.LabelSliceMeans | src/mopipe/segment.py:59-63 | When both bound labels occur once, the label slice and the positional slice through the stop column give the same means |
| Transforms.CalcShiftSegment | src/mopipe/segment.py:74 | The CalcShift segment takes and gives multivariate frames |
| Transforms.ColMeansSegment | src/mopipe/segment.py:37 | The ColMeans segment takes a multivariate frame and gives a univariate series |
| Transforms.CalcShiftCallSucceeds | src/mopipe/core/segments/seg.py:87-98 | A valid multivariate frame whose shift succeeds passes both gates and `__call__` returns the shifted frame |
| Transforms.SingleColumnMeanRaises | src/mopipe/core/segments/outputs.py:28-34 | Through `__call__`, the mean of one selected column (an int, or a str whose label is unique) is refused by the univariate output gate |
| SegmentExamples.CalcShiftExample | tests/test_segments.py:104-108 | `CalcShift(cols=['a'], shift=2)` appends `a_shift` with a[i] − a[i−2] and two leading zeros |
| SegmentExamples.CalcShiftSegmentExample | tests/test_segments.py:104-108 | Called as a segment, the shift passes both multivariate gates and returns the widened frame |
| SegmentExamples.ColMeansAll | tests/test_segments.py:36-44 | On columns A, B, C the slice [0:3] and no selector both give [2, 5, 8] |
| SegmentExamples.ColMeansLabelSlice | src/mopipe/segment.py:63 | The label slice "A":"B" includes its end label and gives [2, 5] |
| SegmentExamples.ColMeansSingle | tests/test_segments.py:28-49 | Column 0 and column "A" give [2]; another selector type is a ValueError |
| SegmentExamples.ColMeansSegmentExample | tests/test_segments.py:36-44 | As a segment the three means come back as a univariate series |
| SegmentIO.SingleValue | src/mopipe/core/segments/io.py:48-52 | Accepts exactly ints, floats, strs and numpy floating scalars |
| SegmentIO.MultipleValues | src/mopipe/core/segments/io.py:54-59 | Accepts exactly lists, tuples and strs of length > 1; never a Series or frame |
| SegmentIO.SingleNumericValue | src/mopipe/core/segments/io.py:61-65 | Accepts exactly ints, floats and numpy scalars |
| SegmentIO.AnyNumeric | src/mopipe/core/segments/io.py:74-84 | A Series or frame passes iff all its data is numeric; otherwise only numeric scalars pass |
| SegmentIO.AnyValue | src/mopipe/core/segments/io.py:86-88 | Every value passes |
| SegmentIO.ValidateShape | src/mopipe/core/segments/io.py:90-110 | Rows must lie in [row_min, row_max]; a 1-D value passes only when col_max is 1, a 2-D one when its columns lie in [col_min, col_max]; a missing maximum is unbounded |
| SegmentIO.AnySeries | src/mopipe/core/segments/io.py:67-72 | No 1-D Series passes; a frame passes iff it has at least one row and one column |
| SegmentIO.Univariate | src/mopipe/core/segments/inputs.py:34-42 | A Series with ≥ 2 rows, or a one-column frame with ≥ 2 rows |
| SegmentIO.Multivariate | src/mopipe/core/segments/inputs.py:50-58 | A frame with ≥ 2 rows and ≥ 2 columns; never a Series |
| Inputs.InputExists | src/mopipe/core/segments/inputs.py:17-21 | True iff an `x` keyword is present |
| Inputs.ValidateInput | src/mopipe/core/segments/inputs.py:24-160 | Every gate except OtherInput answers False without `x` and otherwise applies its shape test; OtherInput reads `x` directly (KeyError) and its base check raises NotImplementedError |
| Inputs.UnivariateInputShapes | src/mopipe/core/segments/inputs.py:34-42 | The univariate input gate accepts a Series or a one-column frame with ≥ 2 rows and refuses two-column frames |
| Inputs.MultivariateInputShapes | src/mopipe/core/segments/inputs.py:50-58 | The multivariate input gate accepts frames with ≥ 2 rows and columns and refuses every Series |
| Inputs.AnyInputAcceptsPresent | src/mopipe/core/segments/inputs.py:136-142 | AnyInput accepts any present `x`, None included |
| Outputs.ValidateOutput | src/mopipe/core/segments/outputs.py:18-137 | Each output gate applies its shape test; the base OtherOutput raises NotImplementedError and AnyOutput accepts everything |
| Seg.MakeSegment | src/mopipe/core/segments/seg.py:31-52 | A given id is kept, otherwise `<name>_<uuid>`; the default hooks are the identity |
| Seg.Call | src/mopipe/core/segments/seg.py:87-98 | Invalid input is a ValueError before anything runs; success needs valid input, a successful process and a valid output |
| Seg.InvalidInputSkipsProcess | src/mopipe/core/segments/seg.py:89-91 | With invalid input the result does not depend on the process body at all |
| Seg.InvalidOutputRaises | src/mopipe/core/segments/seg.py:95-97 | An output the gate refuses makes the call a ValueError |
| Seg.DefaultHooksReturnProcessOutput | src/mopipe/core/segments/seg.py:46-52 | With the default hooks, a valid call returns exactly what process returns |
| Pipelines.CheckKwargs | src/mopipe/core/analysis/pipeline.py:29-33 | Succeeds iff `x` is present, else ValueError |
| Pipelines.RunSegments | src/mopipe/core/analysis/pipeline.py:47-51 | The fold keeps every keyword except `x` unchanged and adds nothing else |
| Pipelines.Run | src/mopipe/core/analysis/pipeline.py:44-52 | Without `x` a ValueError before any segment runs; an empty pipeline returns `x` |
| Pipelines.RunConcat | src/mopipe/core/analysis/pipeline.py:47-51 | Running p1 + p2 is running p1 and then p2 on its output |
| Pipelines.RunAppend | src/mopipe/core/analysis/pipeline.py:44-52 | Running p + [s] is calling s with the kwargs and x set to p's result |
| Pipelines.AddSegment | src/mopipe/core/analysis/pipeline.py:39-42 | Appends and returns the new last index |
| Pipelines.SetItem | src/mopipe/core/analysis/pipeline.py:84-89 | A non-Segment is a ValueError; otherwise list assignment with Python's index rules, nothing else changing |
| Pipelines.SetSlice | src/mopipe/core/analysis/pipeline.py:90-97 | Slice assignment needs every item to be a Segment (ValueError otherwise) and replaces exactly the slice |
| Pipelines.Insert | src/mopipe/core/analysis/pipeline.py:109-110 | List insert at the clamped index |
| Pipelines.DelItem | src/mopipe/core/analysis/pipeline.py:106-107 | List delete with Python's index rules; out of range is an IndexError |
| Pipelines.DelSlice | src/mopipe/core/analysis/pipeline.py:106-107 | Deleting a slice removes exactly the clamped range and keeps both ends |
| Pipelines.InsertThenDelete | src/mopipe/core/analysis/pipeline.py:106-110 | Deleting at the clamped insert index undoes the insert |
| Util.MaybeGenerateId | src/mopipe/core/common/util.py:12-40 | A given id is returned verbatim; otherwise the uuid with `prefix_` before and `_suffix` after when given |
| Util.GeneratedIdParts | src/mopipe/core/common/util.py:38-40 | With only a prefix the id is `prefix_uuid`; with neither it is the uuid |
| Util.IntOrStrSlice | src/mopipe/core/common/util.py:43-51 | int when both bounds are ints, str when both are strs, ValueError otherwise |
| Util.DfSlice | src/mopipe/core/common/util.py:54-61 | Int slices select rows by position; str slices select the rows between the start label's left bound and the stop label's right bound, a KeyError when a bound cannot be placed; mixed bounds are a ValueError |
| Util.DfSliceUniqueLabels | src/mopipe/core/common/util.py:54-61 | When both labels occur once in the index, the label slice is the positional slice through the stop row |
| Util.DfSliceEnds | src/mopipe/core/common/util.py:59 | When both labels occur, a non-empty label slice starts on the start label and ends on the stop label |
| Slicing.FirstKey | src/mopipe/core/common/util.py:59 | The first position of a label, absent exactly when the label is not in the index |
| Slicing.LastKey | src/mopipe/core/common/util.py:59 | The last position of a label, absent exactly when the label is not in the index |
| Slicing.StrLessAsym | src/mopipe/core/common/util.py:59 | Python's string order is asymmetric |
| Slicing.StrLessTotal | src/mopipe/core/common/util.py:59 | Two different strings are ordered one way or the other |
| Slicing.StrLessTrans | src/mopipe/core/common/util.py:59 | Python's string order is transitive |
| Slicing.IncreasingSplit | src/mopipe/core/common/util.py:59 | On an increasing index without the label, the binary-search position splits the labels into those below and those above it |
| Slicing.DecreasingSplit | src/mopipe/core/common/util.py:59 | On a decreasing index without the label, the position splits the labels into those above and those below it |
| Slicing.SliceBound | src/mopipe/core/common/util.py:59 | A bound lies within the index; failure is a KeyError; an absent label can be placed iff the index is sorted either way |
| Slicing.BoundsSpanOccurrences | src/mopipe/core/common/util.py:59 | When a label's left bound exists its right bound does too, and the positions between them are exactly its occurrences |
| Slicing.AbsentBoundSplits | src/mopipe/core/common/util.py:59 | On a sorted index an absent label's bound is the same on both sides and splits the labels by the order |
| Slicing.UniqueBound | src/mopipe/core/common/util.py:59 | A label that occurs once at i has left bound i and right bound i + 1 |
| Slicing.LabelRange | src/mopipe/core/common/util.py:59 | The row range runs from the start's left bound to the stop's right bound, empty when the stop comes first; either bound failing is a KeyError |
| Slicing.UniqueLabelRange | src/mopipe/core/common/util.py:59 | With both labels unique, the range is the positional range from the start row through the stop row |
| SlicingExamples.RepeatedStopExtends | src/mopipe/core/common/util.py:59 | On [a, b, b, c], "b":"b" is rows 1 and 2 |
| SlicingExamples.BrokenOccurrencesRaise | src/mopipe/core/common/util.py:59 | On [x, y, x], "x" cannot bound a slice: KeyError |
| SlicingExamples.AbsentLabelsOnSortedIndex | src/mopipe/core/common/util.py:59 | On the sorted [a, c, e], "b":"d" is row 1 |
| SlicingExamples.AbsentLabelOnUnsortedIndex | src/mopipe/core/common/util.py:59 | On the unsorted [b, a, c], an absent label is a KeyError |
| SlicingExamples.DfSliceRepeatedLabel | src/mopipe/core/common/util.py:59 | `df_slice` of "b":"b" keeps both "b" rows |
| ExperimentData.NewLevel | src/mopipe/core/data/experiment.py:49-65 | A new level has no links, no data and empty indexes, and its id is kept or generated |
| ExperimentData.NewExperiment | src/mopipe/core/data/experiment.py:406-412 | An Experiment is named "experiment" and sits at depth 0 |
| ExperimentData.NewTrial | src/mopipe/core/data/experiment.py:426-431 | A Trial is named "trial" |
| ExperimentData.ParentOf | src/mopipe/core/data/experiment.py:414-417 | An Experiment's parent always reads as None; any other level reports its stored parent |
| ExperimentData.ChildOf | src/mopipe/core/data/experiment.py:433-436 | A Trial's child always reads as None; any other level reports its stored child |
| ExperimentData.CheckNotSame | src/mopipe/core/data/experiment.py:126-133 | The duplicate check raises ValueError iff the key already names the very same object |
| ExperimentData.UpdateMapEntry | src/mopipe/core/data/experiment.py:118-138 | The index appends the new position under its key and changes no other key |
| ExperimentData.AddData | src/mopipe/core/data/experiment.py:140-153 | Appends the item and registers its position under both its name and its id, or raises the first failing index check |
| ExperimentData.AddLeveldata | src/mopipe/core/data/experiment.py:175-178 | `add_leveldata` appends to the level data and its indexes only |
| ExperimentData.AddTimeseriesAsWritten | src/mopipe/core/data/experiment.py:190-193 | As written, the timeseries duplicate check reads the level data list |
| ExperimentData.AddTimeseries | src/mopipe/core/data/experiment.py:190-193 | `add_timeseries` with the duplicate check on the timeseries list |
| ExperimentData.AddDataConsistent | src/mopipe/core/data/experiment.py:140-153 | Adding data keeps every index entry pointing at items with that name or id |
| ExperimentData.GetTimeseries | src/mopipe/core/data/experiment.py:205-239 | Lookup by name or id gives an item of the timeseries list; an unknown key gives None |
| ExperimentData.GetTimeseriesFirst | src/mopipe/core/data/experiment.py:205-239 | On a consistent level the lookup gives the first item whose name or id matches |
| ExperimentData.AddTimeseriesFresh | src/mopipe/core/data/experiment.py:190-193 | A new object is always accepted and keeps the name and id indexes consistent |
| ExperimentData.AddTimeseriesAsWrittenRaises | src/mopipe/core/data/experiment.py:127-133 | As written, adding a timeseries to a level without level data is an IndexError |
| ExperimentData.AddThenGet | src/mopipe/core/data/experiment.py:190-239 | After adding under a fresh name, looking that name up gives the added item |
| ExperimentLinks.Walk | src/mopipe/core/data/experiment.py:349-359 | climb and descend yield the level itself, then every level along the pointer; a walk that does not end is a RecursionError |
| ExperimentLinks.WalkDistinct | src/mopipe/core/data/experiment.py:349-359 | A walk that ends never visits a level twice |
| ExperimentLinks.WalkFits | src/mopipe/core/data/experiment.py:349-359 | A walk that ends has at most one level per level in the store |
| ExperimentLinks.ChainEnough | src/mopipe/core/data/experiment.py:349-359 | The store's size is budget enough: any walk that ends gives the same levels with it |
| ExperimentLinks.Top | src/mopipe/core/data/experiment.py:361-370 | `top` is the last level of the climb and has no parent |
| ExperimentLinks.Bottom | src/mopipe/core/data/experiment.py:372-381 | `bottom` is the last level of the descent and has no child |
| ExperimentLinks.SelfParentRaises | src/mopipe/core/data/experiment.py:361-365 | A level that is its own parent makes `top` recurse without end |
| ExperimentLinks.SetDepths | src/mopipe/core/data/experiment.py:383-387 | `_relevel` gives the i-th level of the chain depth + i and changes nothing else |
| ExperimentLinks.RelevelStack | src/mopipe/core/data/experiment.py:389-399 | After relevelling, the top has depth 0 if it is an Experiment and 1 otherwise, and every child is one deeper than its parent; only depths change |
| ExperimentLinks.RelevelChildren | src/mopipe/core/data/experiment.py:401-403 | The descent from x is renumbered from x's own depth, and levels off it are untouched |
| ExperimentLinks.RelevelChildrenIdempotent | src/mopipe/core/data/experiment.py:401-403 | Relevelling the children twice is relevelling them once |
| ExperimentLinks.RelevelKeepsLinks | src/mopipe/core/data/experiment.py:383-399 | Relevelling keeps every level's links and kind |
| ExperimentLinks.LinkParent | src/mopipe/core/data/experiment.py:85-92 | Setting a parent links both ways and clears the old parent's child pointer |
| ExperimentLinks.LinkChild | src/mopipe/core/data/experiment.py:103-110 | Setting a child links both ways and clears the old child's parent pointer |
| ExperimentLinks.SetParent | src/mopipe/core/data/experiment.py:82-93 | An Experiment refuses a parent with ValueError; otherwise link and relevel |
| ExperimentLinks.SetChild | src/mopipe/core/data/experiment.py:100-111 | A Trial refuses a child with ValueError; otherwise link and relevel |
| ExperimentLinks.SetParentKeepsOthers | src/mopipe/core/data/experiment.py:82-93 | Levels not involved in the link keep their pointers |
| ExperimentLinks.SetParentDropsFormer | src/mopipe/core/data/experiment.py:85-92 | The former parent of the child loses its child pointer |
| ExperimentLinks.SetChildDropsFormer | src/mopipe/core/data/experiment.py:103-110 | The former child of the parent loses its parent pointer |
| ExperimentLinks.SetParentLeavesStale | src/mopipe/core/data/experiment.py:85-92 | The new parent's former child keeps a stale parent pointer |
| ExperimentExamples.TestLevels | tests/core/data/test_experiment.py:6-59 | experiment → group → trial sit at depths 0, 1, 2 with the links, top and bottom as set, and the two refusals raise ValueError |
| ExperimentExamples.ChainFacts | tests/core/data/test_experiment.py:6-53 | For any experiment, plain level and trial linked as in the test: depths 0, 1, 2 and the parent and child pointers as set |
| ExperimentExamples.ChainRefusals | tests/core/data/test_experiment.py:55-59 | A trial takes no child and an experiment no parent: both are ValueErrors |
| ExperimentRuns.Source | src/mopipe/core/data/experiment.py:276-286 | No timeseries, or a missing name, is a ValueError; otherwise the first timeseries or the first one with that name |
| ExperimentRuns.SourceByName | src/mopipe/core/data/experiment.py:276-286 | On a consistent level, a named input is the first timeseries with that name, or a ValueError |
| ExperimentRuns.ResultName | src/mopipe/core/data/experiment.py:290-291 | The default result name is `<source name>_processed` |
| ExperimentRuns.RunPipeline | src/mopipe/core/data/experiment.py:275-302 | The pipeline runs on the source data; storing adds exactly one timeseries, otherwise the level is unchanged |
| ExperimentRuns.RunPipelineSucceeds | src/mopipe/core/data/experiment.py:275-302 | With a source and a successful pipeline the run succeeds |
| ExperimentRuns.RunThenGet | src/mopipe/core/data/experiment.py:275-302 | A stored result is found again under its result name |
| ExperimentRuns.RunStoreAsWrittenRaises | src/mopipe/core/data/experiment.py:127-133 | As written, storing a result whose name a timeseries already has, on a level without level data, is an IndexError |
| ExperimentRuns.Eligible | src/mopipe/core/data/experiment.py:332-338 | A level runs iff its depth matches (if given), it holds a timeseries and it holds the named data (if given) |
| ExperimentRuns.RunOn | src/mopipe/core/data/experiment.py:331-346 | The loop changes only the timeseries of the listed levels and gives at most one result per level |
| ExperimentRuns.RunOnMatchesResults | src/mopipe/core/data/experiment.py:331-346 | The loop's results are exactly the reference list: one per eligible level in descent order |
| ExperimentRuns.RunPipelineOnDescendants | src/mopipe/core/data/experiment.py:304-347 | The descent from the level, then the loop over it |
| ExperimentRuns.DescendantsResults | src/mopipe/core/data/experiment.py:304-347 | On success there is one result per eligible level of the descent, in order |
| ExperimentRunExamples.BasicRun | tests/integration/test_experiment_pipeline.py:62-76 | The result is named `input_processed`, carries the input and is stored |
| ExperimentRunExamples.WithDataName | tests/integration/test_experiment_pipeline.py:77-88 | With data_name 'second' the second timeseries is the input and the result is `second_processed` |
| ExperimentRunExamples.CustomResultName | tests/integration/test_experiment_pipeline.py:89-98 | A given result name is used as it is |
| ExperimentRunExamples.NoStore | tests/integration/test_experiment_pipeline.py:99-108 | Without storing, the level keeps its single timeseries |
| ExperimentRunExamples.NoTimeseriesRaises | tests/integration/test_experiment_pipeline.py:110-114 | A level without timeseries raises ValueError |
| ExperimentRunExamples.NameNotFoundRaises | tests/integration/test_experiment_pipeline.py:116-123 | A missing data name raises ValueError |
| ExperimentRunExamples.DescendantsBasic | tests/integration/test_experiment_pipeline.py:127-143 | From the experiment down, the experiment without data is skipped and the trial gives the one result |
| ExperimentRunExamples.SkipWithoutMatchingName | tests/integration/test_experiment_pipeline.py:180-191 | No level holds the name, so nothing runs |
| Empirical.NormaliseCases | src/mopipe/core/data/empirical.py:37-43 | A key is kept, or replaced by the stored name of the entry it names; a key that names no entry is kept |
| Empirical.NormaliseIdempotent | src/mopipe/core/data/empirical.py:37-43 | Normalising twice is normalising once |
| Empirical.SetItem | src/mopipe/core/data/empirical.py:36-39 | Stores under the stored name, changes no other key and keeps the keys normalised |
| Empirical.GetItem | src/mopipe/core/data/empirical.py:41-44 | Reads under the stored name; absent is a KeyError |
| Empirical.GetAfterSet | src/mopipe/core/data/empirical.py:36-44 | A value set under one key reads back under every key with the same stored name, and nowhere else |
| Empirical.AliasReadBack | tests/core/data/test_empirical.py:13-20 | Setting `frame_count` is reading `n_frames` and the other way round |
| Empirical.InitAsWritten | src/mopipe/core/data/empirical.py:30-34 | As written, a successful constructor keeps every given key, aliases included; the failure is a RuntimeError |
| Empirical.InitLoopAsWritten | src/mopipe/core/data/empirical.py:30-34 | As written, a loop that succeeds keeps exactly the keys it started with; the only failure is a RuntimeError |
| Empirical.Init | src/mopipe/core/data/empirical.py:30-39 | The corrected constructor gives a normalised dict |
| Empirical.InitFromReads | src/mopipe/core/data/empirical.py:30-44 | Every keyword reads back unless a later keyword shares its stored name |
| Empirical.UnknownKeysAsWritten | src/mopipe/core/data/empirical.py:30-34 | On keys it does not rename, the written constructor builds the plain dict |
| Empirical.UnknownKeysIntended | src/mopipe/core/data/empirical.py:30-44 | On keys nothing renames, the corrected constructor reads back every keyword, like the written one |
| Empirical.AliasConstructorRaises | src/mopipe/core/data/empirical.py:30-34 | As written, `MocapMetaData(frame_count=5)` raises RuntimeError |
| Empirical.AliasRaises | src/mopipe/core/data/empirical.py:30-34 | As written, any single keyword whose stored name differs from it raises RuntimeError |
| Empirical.NewStoredNameRaises | src/mopipe/core/data/empirical.py:30-34 | As written, the loop raises as soon as the first keyword's stored name is missing from the dict |
| Empirical.AliasConstructorIntended | src/mopipe/core/data/empirical.py:30-39 | Corrected, `frame_count=5` is stored under `n_frames` |
| Empirical.MakeData | src/mopipe/core/data/empirical.py:64-68 | A given id is kept, otherwise `<name>_<uuid>` |
| Empirical.GetData | src/mopipe/core/data/empirical.py:59-62 | An int gives the row at that position, negative from the end (IndexError out of range); a str gives the selection of that label: the column, or every column carrying it when repeated (KeyError when absent) |
| Empirical.GetDataExample | tests/core/data/test_empirical.py:30-35 | On an X/Y/Z frame: the single column X, rows 0 and −1, and an id starting `mocap_data_` |
| Datastructs.Lookup | src/mopipe/core/common/datastructs.py:51-59 | A member name gives its value, a member value gives itself, anything else is a KeyError |
| Datastructs.Contains | src/mopipe/core/common/datastructs.py:41-49 | Holds iff the lookup succeeds |
| Datastructs.LookupIdempotent | src/mopipe/core/common/datastructs.py:54-57 | E[E[k]] == E[k] for every accepted k when the values are closed |
| Datastructs.ValueIsFixed | src/mopipe/core/common/datastructs.py:54-57 | With closed values every member value looks up to itself |
| Datastructs.MocapRenames | src/mopipe/core/common/datastructs.py:69-72 | cam_count, frame_count and marker_count become n_cameras, n_frames and n_markers |
| Datastructs.MocapKeeps | src/mopipe/core/common/datastructs.py:71-74 | marker_names, sample_rate and time_stamp map to themselves |
| Datastructs.MocapLookupIdempotent | src/mopipe/core/common/datastructs.py:54-74 | Every accepted metadata name normalises idempotently |
| Datastructs.MocapUnknownName | src/mopipe/core/common/datastructs.py:58-59 | A QTM header key such as FREQUENCY is not an entry and is a KeyError |
| Datastructs.MocapClosed | src/mopipe/core/common/datastructs.py:69-74 | Every stored metadata name that is also an entry name is stored under itself |
| Datastructs.TwoMemberNames | tests/common/test_datastructs.py:13-31 | A → a and B → b, and A is contained |
| Datastructs.TwoMemberValues | tests/common/test_datastructs.py:13-31 | The values a and b look up to themselves |
| Datastructs.TwoMemberMissing | tests/common/test_datastructs.py:13-31 | c is a KeyError and not contained |
| Qtm.TrajectoryFromStr | src/mopipe/core/common/qtm.py:30-37 | Case-insensitive "measured" or "mixed"; anything else is a ValueError |
| Qtm.Lower | src/mopipe/core/common/qtm.py:30 | Lower-casing keeps the length and maps exactly the ASCII capitals |
| Qtm.TrajectoryRoundTrip | src/mopipe/core/common/qtm.py:30-37 | The written name of a type, in any letter case, reads back as that type |
| Qtm.ParseTrajectoryTypes | src/mopipe/core/common/qtm.py:104-117 | Elementwise and order-preserving; the first bad entry raises |
| Qtm.ParseEvent | src/mopipe/core/common/qtm.py:82-85 | A one-element list of name, int index and float time from the first three fields; short rows are IndexErrors, bad numbers ValueErrors |
| Qtm.ParseMarkerNames | src/mopipe/core/common/qtm.py:88-101 | The names are kept as they are |
| Qtm.Convert | src/mopipe/core/common/qtm.py:160-166 | "type" entries convert the first field only; handler entries get the whole row; the rest keep the row |
| Qtm.ParseMetadataRow | src/mopipe/core/common/qtm.py:140-166 | An unknown key comes back with its raw row; a known key is renamed and its row converted |
| Qtm.FirstFieldOnly | src/mopipe/core/common/qtm.py:160-161 | Rows that agree in their first field parse alike under a "type" entry |
| Qtm.KnownKeys | src/mopipe/core/common/qtm.py:120-137 | FREQUENCY → sample_rate, NO_OF_FRAMES → n_frames, MARKER_NAMES kept as a list, EVENT → event |
| Reader.EventItems | src/mopipe/core/common/qtm.py:82-85 | A parsed event is the 3-tuple of its name, index and elapsed time |
| Reader.PyAdd | src/mopipe/core/data/reader.py:154 | `+=` adds numbers and concatenates strings; a list is extended by a list, a tuple, an event's three fields or a string's characters; an event or tuple concatenates with an event or tuple, and an event refuses anything else; everything else is a TypeError |
| Reader.MergeRow | src/mopipe/core/data/reader.py:149-154 | A new key is stored; a repeated key has the new value added onto the stored one |
| Reader.Scan | src/mopipe/core/data/reader.py:165-192 | The scan stops within the file and never before where it started |
| Reader.HeaderLength | src/mopipe/core/data/reader.py:172-192 | The header is the longest prefix of non-blank lines whose key is not a number |
| Text.Strip | src/mopipe/core/data/reader.py:174 | The strip is empty iff the line is all whitespace, and otherwise starts and ends on a non-space |
| Text.StripUnicodeSpace | src/mopipe/core/data/reader.py:174 | A file separator, a no-break space and an ideographic space are stripped as Python strips them |
| Reader.ScanStartLine | src/mopipe/core/data/reader.py:172-196 | A successful scan stops at the start line: the header length, plus one for a closing blank line |
| Reader.ScanIgnoresRest | src/mopipe/core/data/reader.py:172-192 | Lines after the first non-header line do not affect the scan |
| Reader.ScanNormalised | src/mopipe/core/data/reader.py:149-192 | A step that keeps metadata keys normalised keeps them so over the whole scan |
| Reader.Step | src/mopipe/core/data/reader.py:139-154 | A header row never removes a key and keeps the keys normalised |
| Reader.ExtractMetadata | src/mopipe/core/data/reader.py:156-196 | On success the metadata holds `sample_rate`, is normalised, and the start line is the header length (plus the blank line) |
| Reader.AddAxes | src/mopipe/core/data/reader.py:225-228 | Three columns `m_x`, `m_y`, `m_z` per marker, appended in marker order |
| Reader.MarkerNames | src/mopipe/core/data/reader.py:227-228 | Iteration succeeds iff the value is a list, tuple, event or string; each item enters the f-string through `str`, a string as it is and any other value through Python's formatting; a list of strings gives its items and a string its characters |
| Reader.PyStrs | src/mopipe/core/data/reader.py:227-228 | `str` of every item, in order, one name per item |
| Reader.ColumnNames | src/mopipe/core/data/reader.py:225-229 | frame, elapsed, then the axis columns of every marker: 3·markers + 2 names |
| Reader.MarkersRoundTrip | src/mopipe/core/data/reader.py:225-229 | The markers can be read back from the column names |
| Reader.ColumnNamesInjective | src/mopipe/core/data/reader.py:225-229 | Different marker lists give different column names |
| Reader.SetAxis | src/mopipe/core/data/reader.py:229 | Renaming the columns keeps the index and the data; a length mismatch is a ValueError |
| Reader.SetIndex | src/mopipe/core/data/reader.py:232 | The named column becomes the index and leaves the columns; a missing label is a KeyError |
| Reader.NamedFrame | src/mopipe/core/data/reader.py:225-232 | With the frame column as index the data has 3·markers + 1 columns, each the raw column under its new name; a width mismatch is a ValueError |
| Reader.NameData | src/mopipe/core/data/reader.py:224-233 | Missing marker names are a KeyError; otherwise the data section is named after them |
| Reader.NewReader | src/mopipe/core/data/reader.py:113-137 | A path source is scanned now, a DataFrame source gets empty metadata, and anything else is a NotImplementedError |
| Reader.Read | src/mopipe/core/data/reader.py:240-260 | A DataFrame source is wrapped as it is; a path without the `.tsv` suffix is a ValueError |
| ReaderExamples.EventIsATuple | src/mopipe/core/data/reader.py:154 | A list plus an event gains the event's three fields, a tuple plus an event concatenates, and an event plus a list is a TypeError |
| ReaderExamples.MarkersFormatted | src/mopipe/core/data/reader.py:227-228 | A marker list holding a number names its columns through the number's `str`; an event gives its three fields; a number is not iterable (TypeError) |
| ReaderExamples.EventsExample | tests/core/data/test_reader.py:41-48 | Three EVENT rows give three events in order, with the sample rate stored and the data line not read as metadata |
| ReaderExamples.EventStep | src/mopipe/core/data/reader.py:139-154 | A first EVENT row stores its event; a later one is appended to the stored list |
| ReaderExamples.MergeEvents | src/mopipe/core/data/reader.py:149-154 | Merging an event list appends it to a stored list, or stores it |
| Collator.NewCollator | src/mopipe/core/data/collator.py:26-39 | No readers and primary index 0 |
| Collator.AddReader | src/mopipe/core/data/collator.py:79-99 | The new index is the old count, and primary moves to it only when is_primary is set |
| Collator.SetPrimary | src/mopipe/core/data/collator.py:61-77 | An index outside 0 … count−1 is an IndexError; otherwise primary is set and nothing else changes |
| Collator.AddThenSetPrimary | src/mopipe/core/data/collator.py:61-99 | Adding and then making primary is adding as primary |
| Collator.GetSampleRate | src/mopipe/core/data/collator.py:101-119 | `sample_rate` is preferred over `FREQUENCY`; neither gives None |
| Collator.ToFloat | src/mopipe/core/data/collator.py:118 | `float(v)` keeps floats, widens ints, parses text (ValueError when it fails) and is a TypeError on anything else |
| Collator.SampleRateThroughAliases | src/mopipe/core/data/collator.py:112-118 | Reading `sample_rate` through the alias table gives the stored rate |
| Collator.SampleRatePreferred | src/mopipe/core/data/collator.py:116-119 | With `sample_rate` present, whatever `FREQUENCY` holds does not matter |
| Collator.Resample | src/mopipe/core/data/collator.py:121-166 | Equal rates return the data unchanged before the method is checked; otherwise an unknown method is a ValueError, a zero rate a ZeroDivisionError, a negative point count a ValueError, and the result is the columns resampled in order under a fresh index, succeeding only when no label is repeated |
| Collator.ResampleColumns | src/mopipe/core/data/collator.py:159-166 | The columns are resampled in order, keeping their labels, onto n points each; it succeeds iff every column's label is unique and the interpolator accepts it, and otherwise raises the first failing column's error, ValueError for a repeated label |
| Collator.RepeatedLabelResample | src/mopipe/core/data/collator.py:159-166 | A label carried by two columns makes resampling a ValueError once every earlier column resampled |
| Collator.Trunc | src/mopipe/core/data/collator.py:154 | `int(x)` truncates toward zero |
| Collator.ReadAll | src/mopipe/core/data/collator.py:195-202 | Every reader is read in order; the first failure, or a None, raises |
| Collator.ReadOne | src/mopipe/core/data/collator.py:197-202 | A reader contributes its data; a None is a ValueError and a raised error is passed on |
| Collator.AlignOne | src/mopipe/core/data/collator.py:213-222 | The primary frame is never resampled; another frame without a rate is a ValueError |
| Collator.AlignFrom | src/mopipe/core/data/collator.py:212-222 | The alignment loop aligns each frame in order, or fails with the first error |
| Collator.MinRows | src/mopipe/core/data/collator.py:224-226 | The cut length is the smallest row count |
| Collator.ColumnsBlock | src/mopipe/core/data/collator.py:224-230 | Each frame's columns, cut to the shortest length, sit at their offset in the concatenation |
| Collator.Concat | src/mopipe/core/data/collator.py:224-229 | The concatenation has the cut length, a fresh range index and every frame's columns in order |
| Collator.SourceNames | src/mopipe/core/data/collator.py:236 | `source_names` lists the reader names in order |
| Collator.Collate | src/mopipe/core/data/collator.py:168-243 | No readers is a ValueError; on success the frames are concatenated after cutting to the shortest length, and the metadata records the primary's rate, that length, the reader count and the reader names |
| Collator.CollateReadFailure | src/mopipe/core/data/collator.py:195-202 | A reader that raises, or the first one giving None, makes `collate` fail with that error |
| Collator.CollateNoPrimaryRate | src/mopipe/core/data/collator.py:205-211 | Data from every reader but no primary rate is a ValueError |
| Collator.CollatePrimaryColumns | src/mopipe/core/data/collator.py:213-237 | The primary's columns appear unresampled, cut to the shortest length |
| Collator.SameRatesNoResample | src/mopipe/core/data/collator.py:213-222 | When every rate equals the primary's, every frame is aligned unchanged |

## Left out

- Entropy: `np.log` is a parameter `ln: real -> real`. The model states which entries enter the entropy sum, not its numeric value.
- Floating point: `scipy.spatial.distance_matrix`, its square root and IEEE rounding are replaced by exact reals and the squared-distance comparison. NaN is not modelled.
- `Mean` and the arithmetic of `ColMeans`: `np.nanmean` is a parameter `mean`. The `Mean` segment (segment.py:19-34) is left out for the same reason.
- `SimpleGapFilling` (segment.py:112-128): it is pandas `interpolate`, foreign numerics.
- Collator interpolation: `interp1d` and `np.linspace` (collator.py:153-166) are a parameter `interp`, assumed to return the requested number of points.
- `parse_time_stamp` (qtm.py:40-66): datetime parsing and timezones are a parameter of the parsers.
- File I/O: a file is its sequence of lines, and `pd.read_csv` is a parameter. `_extract_metadata`'s `open`/`readline` and the `Path` suffix test are modelled only through the lines and the suffix string.
- uuid generation is an input string. Logging warnings in `top` and `bottom` are not modelled.
- `SegmentMeta` and the other metaclass plumbing, plus the `segment_type`, `input_type` and `output_type` properties: they do not change any result.
- The legacy package trees (src/mopipe/segments/, src/mopipe/data/, src/mopipe/analysis/pipeline.py, src/mopipe/common/, src/mopipe/segments.py): these are older copies. The core under src/mopipe/core/ replaces them.
- Pipeline caching (`cache_dir`): the pipeline under src/mopipe/core/analysis/ has no cache.
- RqaSegments.CalcOnCells: when every delay row is empty, (dim−1)·tau equal to n or at least 2n, the source returns a row whose recurrence rate is NaN (0/0) and whose other entries are 0 or −0.0. NaN is not modelled, so the model gives `EmbeddingError` there instead of that row.
- RqaSegments.AutoRqa: a series too short for any embedded point, such as two samples with dim 2 and tau 2, gives `EmbeddingError` where the source returns the NaN-rate row, as for `RqaSegments.CalcOnCells`.
- RqaSegments.CrossRqa: inherits the `EmbeddingError` stand-in for the NaN-rate row from `RqaSegments.CalcOnCells`.
- RqaSegments.WindowedRqaRows: a window too short for any embedded point gives `EmbeddingError` where the source appends a NaN-rate row, as for `RqaSegments.CalcOnCells`.
- RqaSegments.WindowedCrossRqa: inherits the `EmbeddingError` stand-in from `RqaSegments.WindowedRqaRows`.
- RqaSegments.CalcOnPicked: the ValueError for a repeated label is stated as one outcome; which numpy call raises it (the ragged array, or the shape unpacking in `distance_matrix`) is not modelled.
- Transforms.CalcShift: the source adds the `_shift` columns to the frame it is given and returns that same object. The model returns a new table and does not model the mutation of the argument.
- Transforms.ShiftColumns: stated on a new table; the in-place update of the caller's frame is not modelled.
- Transforms.ShiftedColumn: on a frame without rows, a positive shift makes pandas grow the frame to `shift` rows and fill the other columns with NaN. NaN is not modelled, so the model reports `GrowthError` instead of that frame. An empty column also counts as numeric whatever its dtype, since a model cell carries no dtype.
- Transforms.ShiftColumns: inherits the `GrowthError` stand-in from `Transforms.ShiftedColumn`.
- Transforms.CalcShift: inherits the `GrowthError` stand-in from `Transforms.ShiftedColumn`.
- ExperimentRuns.RunPipeline: the source passes `source.data` itself to the pipeline, so an in-place segment such as `CalcShift` also adds columns to the stored source timeseries. The model's "otherwise the level is unchanged" holds only for segments that do not mutate their input.
- ExperimentRuns.RunPipeline: the result is stored through the corrected `add_timeseries`. As written, a result whose name is already taken on a level without level data is an IndexError (`ExperimentRuns.RunStoreAsWrittenRaises`, see Findings).
- ExperimentRuns.RunPipelineSucceeds: stated for the corrected store; as written the store can raise IndexError as in the previous line.
- ExperimentRuns.RunThenGet: stated for the corrected store and a pure pipeline; the source's store can raise, and an in-place segment changes the stored input too.
- ExperimentRuns.RunOn: each level stores through the corrected `add_timeseries`, so the source's IndexError on a taken name is not reproduced.
- ExperimentRuns.RunOnMatchesResults: the reference list assumes the corrected store.
- ExperimentRuns.RunPipelineOnDescendants: runs through `ExperimentRuns.RunOn`, with the corrected store.
- ExperimentRuns.DescendantsResults: stated for the corrected store.
- Util.DfSlice: the slice step is not modelled, because `df_slice` receives the slice whole and `int_or_str_slice` looks only at start and stop. A str bound on an index that is not all strings is a KeyError here; pandas would compare it against the other labels.
- Transforms.LabelSlice: the slice step is not modelled.
- Transforms.ColMeans: the step of an int or str slice is not modelled.
- Pipelines.SetSlice: the slice step is not modelled, and the items are a finite sequence, so a one-shot iterator that the source consumes twice (once to check, once to assign) is not modelled.
- Pipelines.DelSlice: the slice step is not modelled.
- Reader.SetIndex: a label carried by two columns is not modelled; the one call, on "frame", names a column that `ColumnNames` produces once.
- RqaSegments.AutoRqa: a non-empty DataFrame input is modelled as a ValueError from the distance computation, without modelling numpy broadcasting.
- Rqa.CalcRqa: the model's `calc_rqa` uses the corrected average vertical line length. The value as written is `Rqa.AvgVertLengthAsWritten` (see Findings).
- Rqa.CalcRqa: the unchecked preconditions `len(x) == len(y)` and `len(x) > (dim − 1)·tau` are `requires`. A shorter `y` makes the source index out of range. A longer `y` is not modelled either: the source then computes silently on a non-square matrix, because `msize` is the row count only (rqa.py:36).
- Rqa.CalcRqa: `dim` and `tau` are natural numbers. The source takes Python ints: a negative `dim` embeds nothing, as dim 0 does, and a negative `tau` makes `i·tau` count from the end, so every row is the whole series when tau ≤ −n and the rows are ragged (ValueError) otherwise.
- RqaSegments.CalcOnCells: `dim` and `tau` of `RqaParams` are natural numbers; the negative values the source accepts are not modelled, as for `Rqa.CalcRqa`.
- RqaSegments.AutoRqa: negative `dim` and `tau` are not modelled, as for `Rqa.CalcRqa`.
- RqaSegments.CrossRqa: negative `dim` and `tau` are not modelled, as for `Rqa.CalcRqa`.
- RqaSegments.WindowedCrossRqa: negative `dim` and `tau` are not modelled, as for `Rqa.CalcRqa`.
- ExperimentData.AddData: the source appends the item before the index checks and indexes the name before the id. When a check raises, the item stays appended, and when the id check raises the name entry stays too. The model returns only the error, not that leftover level.
- ExperimentData.AddLeveldata: the leftover state of a raising check is not modelled, as for `ExperimentData.AddData`.
- ExperimentData.AddTimeseriesAsWritten: the timeseries stays appended after the IndexError or any other raised check; only the error is modelled.
- ExperimentData.AddTimeseries: the leftover state of a raising check is not modelled, as for `ExperimentData.AddData`.
- ExperimentLinks.SetParent: the pointers are set before `relevel_stack` runs, so after the RecursionError of a cyclic chain the new links stay. The model returns only the error.
- ExperimentLinks.SetChild: the links set before a RecursionError stay in the source; only the error is modelled.
- ExperimentRuns.RunPipelineOnDescendants: `descend` is a generator, so on a cyclic chain the source runs the pipeline on, and stores results into, the levels it reaches before the RecursionError. The model walks the chain first and returns only the error.
- ExperimentLinks.Walk: Python's recursion limit is modelled as a walk budget of the store's size. A cycle through the pointers is a RecursionError, and an ended walk never needs more steps than that.
- ExperimentData.AddTimeseries: the model registers timeseries through the corrected duplicate check. The check as written is `ExperimentData.AddTimeseriesAsWritten` (see Findings).
- Empirical.Init: the model's constructor stores every keyword through `__setitem__`. The constructor as written is `Empirical.InitAsWritten` (see Findings).
- Collator.Resample: the resampled values are whatever the interpolator gives. Only the guards, the row count `int(len · to/from)`, the labels and the repeated-label ValueError are stated. Labels are strings in the model, so `str(col)` keeps them as they are; a non-string label that `str` would turn into text is not modelled.
- Reader.MarkerNames: Python's `str` of a number, a container or a time stamp is a parameter, not modelled formatting.

## Findings

| source | as written | input that shows it | evidently intended | confidence | as-written member | corrected member |
|---|---|---|---|---|---|---|
| src/mopipe/core/analysis/rqa.py:67-68 | `avg_vert_length` divides the vertical weight by the diagonal histogram's tail count | `calc_rqa([1,1,2,2], [1,1,2,2], 1, 1, 0.1, 2)`: written 8.0, above the 4-point maximum | divide by the vertical histogram's tail count, giving 2.0 | not executed | RqaExamples.AvgVertLengthDefect | Rqa.AvgVertLength |
| src/mopipe/core/data/empirical.py:30-34 | the constructor inserts a stored name into `kwargs` while iterating over `kwargs.items()` | `MocapMetaData(frame_count=5)`: the dict grows during iteration, so CPython raises RuntimeError | store `frame_count=5` under `n_frames`, as `__setitem__` does | not executed | Empirical.AliasConstructorRaises | Empirical.AliasConstructorIntended |
| src/mopipe/core/data/experiment.py:127-133 | the duplicate check for a timeseries indexes `_leveldata` with the timeseries position | `add_timeseries` on a level with no level data, under a name already present: `_leveldata[0]` is an IndexError | compare against the timeseries list being updated | not executed | ExperimentData.AddTimeseriesAsWrittenRaises | ExperimentData.AddTimeseriesFresh |
