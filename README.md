# seq-align: the dynamic-programming core, in Dafny

This project models the alignment engine of the Rust crate `seq-align`.
It has two aligners:

- Needleman–Wunsch global alignment (`src/global.rs`). It fills a score
  matrix with linear gap borders, then traces back from the bottom-right cell.
- Smith–Waterman local alignment (`src/local.rs`). It fills a matrix with zero
  borders, clamped at 0, then traces back from the last maximal cell down to
  the first zero cell.

It also models what the two aligners share:

- the dense row-major `AlignmentMatrix` (`src/matrix.rs`);
- letters, the gap letter `'-'` and letter normalisation (`src/letter.rs`);
- the digit counter `score_digit_count` (`src/score.rs`).

Layout, one module per file:

| file | module | models |
|---|---|---|
| `wrappers.dfy` | `Wrappers` | `Option` |
| `seqs.dfy` | `Seqs` | `Vec::reverse` as `Reversed`, and sequence facts |
| `letter.dfy` | `Letters` | `src/letter.rs` and `slice.get(i).normalize_letter()`; gap removal and "is an alignment of" |
| `score.dfy` | `Scores` | `src/score.rs`, `i64::max` and `ilog10` |
| `matrix.dfy` | `Matrix` | `src/matrix.rs`: class `AlignmentMatrix` over one `array<int>` buffer |
| `moves.dfy` | `Moves` | the three traceback moves both aligners share |
| `global.dfy` | `Global` | `src/global.rs` |
| `local.dfy` | `Local` | `src/local.rs` |

How the two aligners are modelled:

- The fill loops and the traceback loops are imperative methods.
  - The fill methods update the `AlignmentMatrix` in place.
  - The traceback methods push onto sequences, then reverse them.
- Each method is proved against a pure reference definition:
  - `NwScore`/`NwGrid` and `SwScore`/`SwGrid` define the matrix cell by cell;
  - `NwTraceback` and `SwTraceback` define the traceback as recursion over that matrix.
- Lemmas state what the reference definitions mean:
  - which letters the result aligns;
  - what score it reports;
  - where that score stands relative to every other alignment.
- The `Findings` section gives a corrected traceback for each aligner.

Behaviours of the code that the model keeps as they are:

- Needleman–Wunsch picks the traceback move by the neighbours' values alone,
  preferring diagonal, then up, then left. It does not check that the cell's
  value came from that neighbour.
- Only one local result is returned.
- No identity statistic is computed.

## Model

| member | source | states |
|---|---|---|
| Letters.NormalizeLetter | src/letter.rs:16-19 | normalising a letter returns it unchanged (normalising through a reference is the same function) |
| Letters.NormalizeOption | src/letter.rs:33-40 | `None` normalises to the gap `'-'`, `Some(l)` to the normalisation of `l` |
| Letters.Get | src/global.rs:60-61 | `slice.get(i)` is `Some(s[i])` exactly when `i < len`, else `None` |
| Letters.LetterAt | src/local.rs:158-159 | `s.get(i).normalize_letter()` is `s[i]` in range and the gap letter past the end |
| Letters.NoGapColumnsPush | src/global.rs:63-64 | appending a column keeps "no column is gap against gap" exactly when the new column holds a letter |
| Letters.AlignmentWindowPop | src/local.rs:180-207 | taking the last column off an alignment of two windows: each letter of that column is its window's last letter, not both are gaps, and the rest aligns the windows shortened by the letters taken |
| Letters.RemoveGapsLastLetterWindow | src/local.rs:182-185 | if an aligned side ending in a letter spells the window `s[k..i]`, then the window is non-empty, the letter is `s[i-1]`, and the rest spells `s[k..i-1]` |
| Letters.LettersStep | src/local.rs:180-207 | pushing the next letter of the sequence (or a gap) extends the window the aligned side spells by one (or by none) |
| Seqs.Reversed | src/global.rs:93-94 | `Vec::reverse`: the same length, with the input's elements listed last to first |
| Scores.Max | src/global.rs:55 | `i64::max` is an upper bound of both arguments and equal to one of them |
| Scores.ILog10 | src/score.rs:7 | `ilog10(n)` is the `d` with `10^d <= n < 10^(d+1)` |
| Scores.ILog10Unique | src/score.rs:7 | that `d` is unique |
| Scores.ScoreDigitCount | src/score.rs:5-13 | the count is at least 1; it is 1 for 0; for `s > 0` it is the `d` with `10^(d-1) <= s < 10^d`; for `s < 0` it is at least 2 and bounds `-s` the same way, one place lower |
| Scores.DigitCountNegative | src/score.rs:8-9 | a negative score needs one character more than its magnitude (the minus sign) |
| Scores.DigitCountUnique | src/score.rs:6-7 | for a positive score the count is the only `d` with `10^(d-1) <= s < 10^d` |
| Scores.DigitCountAtMost20 | src/score.rs:5-13 | every `i64` above `i64::MIN` needs at most 20 characters |
| Matrix.OffsetInside | src/matrix.rs:28 | the offset `i * width + j` of an in-range cell lies inside the `height * width` buffer |
| Matrix.OffsetOutside | src/matrix.rs:28 | the offset of a cell at or below row `height` lies outside the buffer |
| Matrix.OffsetInjective | src/matrix.rs:28 | two cells with columns below `width` share an offset only if they are the same cell |
| Matrix.DivExact | src/matrix.rs:17 | `height()` of an `h * w` buffer over a width `w > 0` is `h` |
| Matrix.AlignmentMatrix.constructor | src/matrix.rs:12-14 | `new(h, w)` (and `zeroed`) holds `h` rows of `w` cells, all 0 |
| Matrix.AlignmentMatrix.Height | src/matrix.rs:16-18 | the height is the number of rows |
| Matrix.AlignmentMatrix.Get | src/matrix.rs:24-42 | `get(i, j)` is `Some(cell)` exactly when `i < height` and `j < width`, else `None` |
| Matrix.AlignmentMatrix.At | src/matrix.rs:55-61 | indexing reads the same cell as `get`; out-of-range indexing panics, so in-range is required |
| Matrix.AlignmentMatrix.Set | src/matrix.rs:45-52 | `set` returns true exactly for an in-range cell; then `get` of it gives the new score; every other cell is unchanged, and an out-of-range `set` changes nothing |
| Matrix.AlignmentMatrix.SetAt | src/matrix.rs:63-67 | `matrix[[i, j]] = s` overwrites exactly that cell |
| Matrix.AlignmentMatrix.ArgmaxRev | src/local.rs:48-50 | `argmax_rev` is `None` exactly for an empty matrix; otherwise it is the last cell in row-major order holding the maximum |
| Moves.StepBack | src/global.rs:57-89 | each move goes back to a neighbour and strictly decreases `i + j` |
| Moves.MovePushesLetter | src/global.rs:57-89 | over gap-free inputs every move pushes at least one letter |
| Global.DefaultConfig | src/global.rs:14-18 | the default weights reward a match, penalise a mismatch, penalise a gap more, and one gap costs at least half a mismatch |
| Global.NwScoreLowerBound | src/global.rs:111-183 | the reference matrix cell (i, j) is never below `(i + j) * gap`, the score of aligning both prefixes entirely against gaps |
| Global.NwGrid | src/global.rs:111-183 | the reference matrix: `|row|+1` rows of `|col|+1` cells, each equal to `NwScore` |
| Global.NwRecurrenceKept | src/global.rs:182 | writing a cell that is neither (a, b) nor one of its three predecessors keeps (a, b) satisfying the recurrence |
| Global.NwGridUnique | src/global.rs:111-183 | a grid with the linear-gap borders that satisfies the recurrence at every interior cell is the reference matrix |
| Global.FillNwMatrixBase | src/global.rs:111-125 | `fill_nw_matrix_base` writes `j * gap` along row 0 and `i * gap` down column 0 and leaves every other cell unchanged |
| Global.ComputeNwMatrixCell | src/global.rs:158-183 | cell (i+1, j+1) becomes `max(max(top, left) + gap, top_left + match/mismatch)`; nothing else changes |
| Global.FillNwRowPass | src/global.rs:139-143 | one row pass of the staircase settles the rest of row `base_i + 1`; every cell outside that stretch of the row, the borders included, is unchanged |
| Global.FillNwColumnPass | src/global.rs:149-153 | one column pass settles the rest of column `base_j + 1`; every cell outside that stretch of the column, the borders included, is unchanged |
| Global.FillNwMatrixContent | src/global.rs:127-156 | the staircase leaves every interior cell satisfying the recurrence and the borders unchanged |
| Global.ComputeNwMatrix | src/global.rs:98-109 | `compute_nw_matrix` returns exactly the reference matrix |
| Global.ColumnWeight | src/global.rs:57-88 | a column with a gap on either side weighs `gap`; a column of two letters weighs the match or mismatch weight |
| Global.NwMoveAt | src/global.rs:52-57 | the move is Diagonal iff top-left is the neighbour maximum; Up iff top beats top-left and is at least left; Left otherwise |
| Global.NeighbourMaxMove | src/global.rs:52-57 | from the three neighbour values alone: Diagonal iff top-left is the maximum; Up iff top beats top-left and is at least left; Left otherwise |
| Global.NwTraceback | src/global.rs:51-90 | the traced sides have equal length, between `max` and the sum of the two index distances, and the walk stops on row 0 or column 0 |
| Global.NwTracebackScore | src/global.rs:66-88 | the returned score is the column-by-column score of the returned alignment |
| Global.NwTracebackLetters | src/global.rs:58-89 | over gap-free inputs the row side spells `row[stop_i..i]` and the column side spells `col[stop_j..j]` |
| Global.NwTracebackStep | src/global.rs:52-89 | one loop pass makes the move `NwMoveAt` picks, pushes its letters and adds that column's weight |
| Global.PushNwStep | src/global.rs:52-89 | one loop pass keeps "still to trace, then pushed" equal to the whole traceback |
| Global.PushNwTraceback | src/global.rs:42-90 | the loop leaves the pushed columns equal to the traceback from the bottom-right cell, back to front |
| Global.MountBestNwAlignment | src/global.rs:36-96 | `mount_best_nw_alignment` returns the traceback from the bottom-right cell, in reading order |
| Global.NeedlemanWunsch | src/global.rs:27-34 | `needleman_wunsch` returns the traceback of the reference matrix from (|row|, |col|) |
| Global.NwScoreDiagonalBound | src/global.rs:177-182 | a cell is at least its top-left neighbour plus the match/mismatch weight |
| Global.NwScoreUpBound | src/global.rs:111-182 | a cell is at least its top neighbour plus the gap weight, on column 0 too |
| Global.NwScoreLeftBound | src/global.rs:111-182 | a cell is at least its left neighbour plus the gap weight, on row 0 too |
| Global.ColumnsScorePush | src/global.rs:66-88 | one more column adds its weight to the column-by-column score |
| Global.NwScoreOptimal | src/global.rs:111-183 | over gap-free inputs no alignment of `row[..i]` against `col[..j]` scores more than cell (i, j) |
| Global.NwOptimalMove | src/global.rs:51-89 | the corrected move stays inside the matrix |
| Global.NwOptimalMoveFollowsSource | src/global.rs:52-57 | inside the matrix, whenever the move the code makes on the reference matrix goes back to a neighbour the cell's value came from, the corrected move is that same move |
| Global.NwOptimalMoveSound | src/global.rs:158-183 | over gap-free inputs the corrected move always goes back to a neighbour whose value plus the pushed column's weight is the cell's value |
| Global.NwOptimalTraceback | src/global.rs:51-89 | the corrected traceback's sides have equal length, at most `i + j` |
| Global.NwOptimalTracebackAligns | src/global.rs:51-96 | the corrected traceback aligns the whole prefixes `row[..i]` and `col[..j]` and reports its column-by-column score |
| Global.NwOptimalTracebackScore | src/global.rs:51-96 | the corrected traceback's score is the reference matrix's value at the start cell |
| Global.NwOptimalTracebackOptimal | src/global.rs:27-34 | the corrected traceback returns an optimal global alignment of the two sequences |
| Global.NwTracebackStopsEarly | src/global.rs:51 | as written, a non-empty row against the empty column yields the empty alignment, which drops the row's letters |
| Global.NwOptimalTracebackKeepsLeadingLetters | src/global.rs:51 | corrected: against the empty column a row prefix aligns letter for letter with gaps, scoring `i * gap` |
| Global.NwTieBreakSuboptimal | src/global.rs:55-57 | as written, with `mismatch < 2 * gap <= 0`, two distinct letters align as one mismatch column scoring below the matrix's `2 * gap` |
| Global.NwOptimalTracebackBreaksTie | src/global.rs:55-57 | corrected: the same inputs align as two gap columns scoring `2 * gap` |
| Global.NwWhatWhyUpperRows | src/global.rs:191-205 | for the first unit test (`WHAT` against `WHY`, weights 1, -1, -2, over any five distinct letters), rows 1 and 2 of the reference matrix hold 1, -1, -3 and -1, 2, 0 |
| Global.NwWhatWhyLowerRows | src/global.rs:191-205 | for the same test, cells (3, 1..3) hold -3, 0, 1 and cells (4, 2..3) hold -2, -1 |
| Global.NwWhatWhyMoves | src/global.rs:52-57 | for the same test, the corrected moves from (1, 1), (2, 2) and (3, 3) are Diagonal and from (4, 3) Up, the moves of the largest neighbour |
| Global.NwOptimalTracebackWhatWhy | src/global.rs:191-213 | the corrected traceback returns what the test expects: `WHAT` over `WHY-` with score -1 |
| Global.NwWhatWhySourceMoves | src/global.rs:52-57 | for the same test, the code's moves on its own matrix are Up from (4, 3) and Diagonal from (3, 3), (2, 2) and (1, 1) |
| Global.NwTracebackWhatWhyAsWritten | src/global.rs:191-213 | the code's traceback over the matrix it fills also returns `WHAT` over `WHY-` with score -1 |
| Global.NeedlemanWunschWhatWhy | src/global.rs:191-213 | `needleman_wunsch` on that test, over any five distinct letters, returns exactly the expected result |
| Global.GattacaExpectedColumns | src/global.rs:226-230 | the eight columns of the second test's expected alignment, pushed in order, give `GCAT-GCG` over `G-ATTACA` with score 0 |
| Global.NwGattacaMatrixUpper | src/global.rs:111-183 | for the second unit test (`GCATGCG` against `GATTACA`, weights 1, -1, -1, over any four distinct letters), rows 0 to 3 of the reference matrix are the ones listed in `GattacaMatrix` |
| Global.NwGattacaMatrixLower | src/global.rs:111-183 | for the same test, rows 4 to 7 are the ones listed in `GattacaMatrix` |
| Global.NwGattacaMatrix | src/global.rs:98-183 | for the same test, the reference matrix is exactly `GattacaMatrix` |
| Global.NwTracebackGattacaAsWritten | src/global.rs:216-238 | the code's traceback over that matrix returns `GCAT-GCG` over `G-ATTACA` with score 0, as the test expects |
| Global.NwOptimalTracebackGattaca | src/global.rs:216-238 | the corrected traceback returns that same alignment and score |
| Global.NeedlemanWunschGattaca | src/global.rs:216-238 | `needleman_wunsch` on that test, over any four distinct letters, returns exactly the expected result |
| Local.DefaultConfig | src/local.rs:14-18 | the default weights reward a match, penalise a mismatch and penalise a gap more |
| Local.SwScore | src/local.rs:154-170 | the reference local matrix: 0 on the borders, the recurrence clamped at 0 inside, so no cell is negative |
| Local.SwGrid | src/local.rs:108-113 | the reference matrix: `|row|+1` rows of `|col|+1` cells, each equal to `SwScore` |
| Local.SwRecurrenceKept | src/local.rs:170 | writing a cell that is neither (a, b) nor one of its three predecessors keeps (a, b) satisfying the recurrence |
| Local.SwCellsUpTo | src/local.rs:154-170 | zero borders plus the clamped recurrence force every cell on or above an anti-diagonal to be the reference value |
| Local.SwCellFromNeighbours | src/local.rs:154-170 | a cell meeting the recurrence over reference-valued neighbours is itself the reference value |
| Local.SwGridUnique | src/local.rs:108-170 | a grid with zero borders satisfying the clamped recurrence everywhere is the reference matrix |
| Local.ComputeSwMatrixCell | src/local.rs:146-171 | cell (i+1, j+1) becomes `max(max(max(top, left) + gap, top_left + match/mismatch), 0)`; nothing else changes |
| Local.FillSwRowPass | src/local.rs:127-131 | one row pass settles the rest of row `base_i + 1`; every cell outside that stretch of the row, the borders included, is unchanged |
| Local.FillSwColumnPass | src/local.rs:137-141 | one column pass settles the rest of column `base_j + 1`; every cell outside that stretch of the column, the borders included, is unchanged |
| Local.FillSwMatrixContent | src/local.rs:115-144 | the staircase leaves every interior cell satisfying the clamped recurrence and the zero borders unchanged |
| Local.ComputeSwMatrix | src/local.rs:103-113 | `compute_sw_matrix` returns exactly the reference matrix |
| Local.TracebackSwTopLeft | src/local.rs:173-186 | both windows start one earlier, keep their end, and push the letter at `i` (row) and at `j` (column); the score is unchanged |
| Local.TracebackSwTop | src/local.rs:188-197 | the row window starts one earlier and pushes the letter at `i`; the column side pushes a gap and keeps its window; the score is unchanged |
| Local.TracebackSwLeft | src/local.rs:199-208 | the column window starts one earlier and pushes the letter at `j`; the row side pushes a gap and keeps its window; the score is unchanged |
| Local.SwMoveAt | src/local.rs:73-94 | the move is Diagonal iff top-left is the neighbour maximum or 0; Up iff not that and top is the maximum or 0; Left otherwise |
| Local.SwTraceback | src/local.rs:69-95 | the traced sides have equal length, and the walk stops at or above-left of its start, on a cell holding 0 |
| Local.SwAlignmentFrom | src/local.rs:54-101 | the result from start cell (i, j): its score is that cell's value, both windows end at (i, j), they start at or above-left of it on a cell holding 0, and the two sides have equal length |
| Local.SwTracebackAtZero | src/local.rs:69 | standing on a zero cell the loop pushes nothing |
| Local.SwInvariantStep | src/local.rs:75-94 | one move keeps "still to trace, then pushed" equal to the whole traceback |
| Local.PushSwStep | src/local.rs:70-94 | one loop pass moves as `SwMoveAt`, decrements `start` of each side that consumed a letter, keeps `end` and the score, and keeps the invariant |
| Local.PushSwTraceback | src/local.rs:54-95 | the loop's pushed letters, read backwards, are the traceback; `start` is where it stopped, `end` is the start cell, the score is the start cell's value |
| Local.TracebackBestSwAlignment | src/local.rs:43-101 | `traceback_best_sw_alignment` starts at the last maximal cell and returns the traceback from it, in reading order |
| Local.BestSmithWaterman | src/local.rs:34-41 | `best_smith_waterman` returns the traceback of the reference matrix from its last maximal cell |
| Local.SwTracebackColumns | src/local.rs:173-208 | over gap-free inputs no traced column is gap against gap |
| Local.SwTracebackLetters | src/local.rs:173-208 | over gap-free inputs the row side spells `row[start..end]` and the column side spells `col[start..end]` |
| Local.SwAlignmentWindows | src/local.rs:54-101 | `start <= end`, each side aligns its window, `end - start` is the side's letter count, and the score is the start cell's value |
| Local.ColumnWeight | src/local.rs:160-168 | a column with a gap on either side weighs `gap`; a column of two letters weighs the match or mismatch weight |
| Local.ColumnsScorePush | src/local.rs:160-168 | one more column adds its weight to the column-by-column score |
| Local.SwScoreOptimal | src/local.rs:146-171 | with `gap <= 0`, no alignment of windows ending at (i, j) scores more than cell (i, j) |
| Local.SwDiagonalStep | src/local.rs:160-170 | the case of that bound where the last column is the cell's two letters: the rest scores at most the top-left neighbour |
| Local.SwUpStep | src/local.rs:167-170 | the case where the last column is the row letter against a gap: the rest scores at most the top neighbour |
| Local.SwLeftStep | src/local.rs:167-170 | the case where the last column is a gap against the column letter: the rest scores at most the left neighbour |
| Local.SwAlignmentScoreOptimal | src/local.rs:34-41 | the score `best_smith_waterman` reports is at least that of every alignment of any two windows |
| Local.SwOptimalMove | src/local.rs:75-94 | the corrected move is Diagonal exactly when the cell is its top-left neighbour plus the match/mismatch weight |
| Local.SwOptimalMoveSound | src/local.rs:154-170 | from a positive cell the corrected move goes back to a neighbour whose value plus the pushed column's weight is the cell's value |
| Local.SwOptimalTraceback | src/local.rs:69-95 | the corrected traceback's sides have equal length, and it stops at or above-left of its start, on a reference cell holding 0 |
| Local.SwOptimalTracebackAligns | src/local.rs:69-98 | the corrected traceback aligns the windows between its stop and start cells and its columns score the start cell's value |
| Local.SwOptimalTracebackBest | src/local.rs:34-41 | from the last maximal cell with `gap <= 0`, the corrected traceback aligns two windows and no window alignment scores more |
| Local.SwExampleGrid | src/local.rs:154-170 | for a row `a x b` against a column `a b` under weights (3, -3, -1) the matrix is [0 0 0], [0 3 2], [0 2 1], [0 1 5], with the last maximum at (3, 2) |
| Local.SwTracebackMisreportsScore | src/local.rs:77 | as written, that example yields `x b` / `a b` with score 5, although its columns score 0 |
| Local.SwOptimalTracebackExample | src/local.rs:77 | corrected: the same example yields `a x b` / `a - b`, whose columns score the reported 5 |
| Local.SwEasyCaseMatrix | src/local.rs:103-171 | for the unit test (`GGTTGACTA` against `TGTTACGG`, weights 3, -3, -2, over any four distinct letters), the reference matrix is exactly `EasyCaseMatrix` |
| Local.EasyCaseMatrixLastMax | src/local.rs:48-50 | that matrix has zero borders and its last maximal cell is (7, 6), holding 13; every other cell is below 13 |
| Local.SwTracebackEasyCaseAsWritten | src/local.rs:54-101 | the code's traceback from (7, 6) returns rows 1 to 7 `GTTGAC` over columns 1 to 6 `GTT-AC` with score 13 |
| Local.SwOptimalTracebackEasyCase | src/local.rs:69-95 | the corrected traceback from (7, 6) pushes the same columns and stops at (1, 1) |
| Local.EasyCaseColumnsScore | src/local.rs:160-168 | the columns of that alignment score 13, the value the code reports |
| Local.SwEasyCaseResult | src/local.rs:34-41 | on that test, every result traced from a last maximal cell of the reference matrix is the one the test expects |
| Local.BestSmithWatermanEasyCase | src/local.rs:219-250 | `best_smith_waterman` on that test, over any four distinct letters, returns exactly the expected result |

## Left out

- The binaries `src/bin/q1.rs`, `src/bin/q2.rs` and `src/bin/q3.rs` are not modelled. They print literal examples through `PrettyPrint`, which is defined in no file of the crate.
- Identity statistics are not modelled, and neither is enumerating every tied local maximum. The crate computes neither.
- `Vec::with_capacity` and `shrink_to_fit` are not modelled. They only tune allocation.
- Scores are unbounded integers. Overflow of `i64` additions in the fill and the traceback is not modelled. Only `score_digit_count` keeps the `i64` range, because `-i64::MIN` overflows there.
- `AlignmentMatrix::zeroed` is modelled by the zero-filling constructor, because no file defines it.
- `AlignmentMatrix::argmax_rev` is not defined in any file. `ArgmaxRev` assumes it picks the last maximal cell in row-major order. It returns `None` only for an empty matrix.
- TracebackBestSwAlignment: the `unwrap_or` fallback to the bottom-right cell is modelled, but no caller reaches it. The matrix always has at least one cell.
- FillNwMatrixContent, FillSwMatrixContent, ComputeNwMatrix, ComputeSwMatrix, NeedlemanWunsch, BestSmithWaterman: these require `|row| > 0 || |col| == 0`.
  - For an empty row against a non-empty column, the staircase writes row 1 of a one-row matrix, and Rust panics.
- FillNwRowPass, FillNwColumnPass, FillSwRowPass, FillSwColumnPass: these split each staircase loop into one method per inner `for` loop. The outer `loop` keeps its order.
- The three unit tests are proved over symbolic letters: any pairwise-distinct non-gap letters standing for `W`, `H`, `A`, `T`, `Y` (first test) or `G`, `C`, `A`, `T` (the other two).
  - The concrete characters of the tests are one instance of these letters.
  - Each test is stated as a method that calls the aligner and ensures the expected result: NeedlemanWunschWhatWhy, NeedlemanWunschGattaca, BestSmithWatermanEasyCase.
- SwScoreOptimal, SwDiagonalStep, SwUpStep, SwLeftStep, SwAlignmentScoreOptimal, SwOptimalTracebackBest: these require `gapWeight <= 0`.
  - The zero borders give no credit to a letter set against a gap, while such a column scores `gapWeight`.
  - So with `gapWeight > 0` the bound fails: against an empty column, the row `x` aligned as `x` over `-` scores `gapWeight > 0`, yet cell (1, 0) holds 0.
- Letters.RemoveGaps, NoGap, IsAlignmentOf: these only state meaning. The crate has no such functions.
  - Every optimality and window lemma assumes inputs without the gap letter, since `'-'` inside an input would read as a gap.

## Findings

| source | as written | input that shows it | evidently intended | confidence | as-written member | corrected member |
|---|---|---|---|---|---|---|
| src/global.rs:51 | the traceback loop runs while `current_i > 0 && current_j > 0`, so it stops as soon as either index reaches 0 | any non-empty row against an empty column: the result is empty, and the row's letters are lost | continue along row 0 or column 0, pushing gaps, until (0, 0) | high (not executed) | Global.NwTracebackStopsEarly | Global.NwOptimalTracebackKeepsLeadingLetters |
| src/global.rs:55-57 | the move is chosen by the largest neighbour, not by which neighbour the cell's value came from | rows `a` and `b` with `a != b` and `mismatch < 2 * gap <= 0`: the traceback returns one mismatch column, which scores below the matrix value `2 * gap` | keep the largest-neighbour move whenever the cell's value came from that neighbour; otherwise go back to a neighbour whose value plus the move's weight is the cell's value | high (not executed) | Global.NwTieBreakSuboptimal | Global.NwOptimalTracebackBreaksTie |
| src/local.rs:77 | the diagonal move is also taken whenever the top-left neighbour is 0, even when the cell's value came from a gap | row `a x b`, column `a b`, weights (3, -3, -1): the traceback returns `x b` / `a b` with score 5, whose columns score 0 | follow the recurrence backwards down to a zero cell; this also changes which move wins a tie when the code's move is itself consistent with the recurrence, e.g. with the two letters matching, top-left 1, top 5, left 0, match 3, gap -1, the cell holds 4 from both top-left and top: the code goes Up, the correction goes Diagonal | high (not executed) | Local.SwTracebackMisreportsScore | Local.SwOptimalTracebackExample |
