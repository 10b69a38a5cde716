/**
 * Local alignment by Smith–Waterman (src/local.rs): a matrix with zero
 * borders, filled by a three-way maximum clamped at 0 in a staircase order,
 * then one traceback from the last maximal cell down to the first zero cell.
 */
module Local {
  import opened Wrappers
  import opened Letters
  import opened Scores
  import opened Seqs
  import opened Matrix
  import opened Moves

  /** The three weights added along an alignment path. */
  datatype LocalAlignmentConfig = LocalAlignmentConfig(matchWeight: int, mismatchWeight: int, gapWeight: int)

  /** `LocalAlignmentConfig::default()`. */
  function DefaultConfig(): (cfg: LocalAlignmentConfig)
    ensures cfg.matchWeight > 0 > cfg.mismatchWeight > cfg.gapWeight
  {
    LocalAlignmentConfig(1, -1, -2)
  }

  /** The aligned part of one input: the window `[start, end)` it covers and its letters with gaps. */
  datatype LocallyAlignedSeq = LocallyAlignedSeq(start: nat, end: nat, data: seq<Letter>)

  datatype LocalAlignmentResult = LocalAlignmentResult(
    alignedRowSeq: LocallyAlignedSeq,
    alignedColumnSeq: LocallyAlignedSeq,
    score: int)

  /** Weight of putting letter `a` against letter `b` (the diagonal move of the fill). */
  function NoGapWeight(cfg: LocalAlignmentConfig, a: Letter, b: Letter): int {
    if a == b then cfg.matchWeight else cfg.mismatchWeight
  }

  /** The value `compute_sw_matrix_cell` gives a cell from its three neighbours: the global recurrence clamped at 0. */
  function SwRecurrence(cfg: LocalAlignmentConfig, a: Letter, b: Letter, topLeft: int, top: int, left: int): int {
    Max(Max(Max(top, left) + cfg.gapWeight, topLeft + NoGapWeight(cfg, a, b)), 0)
  }

  /**
   * The reference definition of the local matrix: 0 on row 0 and column 0,
   * the clamped recurrence of its neighbours inside. No cell is negative.
   */
  function SwScore(row: seq<Letter>, col: seq<Letter>, cfg: LocalAlignmentConfig, i: nat, j: nat): (s: int)
    requires i <= |row| && j <= |col|
    ensures s >= 0
    decreases i + j
  {
    if i == 0 || j == 0 then 0
    else SwRecurrence(cfg, row[i - 1], col[j - 1],
      SwScore(row, col, cfg, i - 1, j - 1), SwScore(row, col, cfg, i - 1, j), SwScore(row, col, cfg, i, j - 1))
  }

  /** The whole reference matrix, `|row| + 1` rows of `|col| + 1` cells. */
  function SwGrid(row: seq<Letter>, col: seq<Letter>, cfg: LocalAlignmentConfig): (g: seq<seq<int>>)
    ensures |g| == |row| + 1 && Rect(g, |col| + 1)
    ensures forall i, j :: 0 <= i <= |row| && 0 <= j <= |col| ==> g[i][j] == SwScore(row, col, cfg, i, j)
  {
    seq(|row| + 1, i requires 0 <= i <= |row| =>
      seq(|col| + 1, j requires 0 <= j <= |col| => SwScore(row, col, cfg, i, j)))
  }

  /** Row 0 and column 0 of `g` hold 0. */
  ghost predicate HasZeroBorders(g: seq<seq<int>>, w: nat)
    requires Rect(g, w)
  {
    forall i, j :: 0 <= i < |g| && 0 <= j < w && (i == 0 || j == 0) ==> g[i][j] == 0
  }

  /** Interior cell (i, j) of `g` is the clamped recurrence of its top-left, top and left neighbours. */
  ghost predicate SatisfiesSwRecurrence(g: seq<seq<int>>, row: seq<Letter>, col: seq<Letter>, cfg: LocalAlignmentConfig, i: nat, j: nat) {
    1 <= i <= |row| && 1 <= j <= |col| && i < |g| && j < |g[i]| && j < |g[i - 1]| &&
    g[i][j] == SwRecurrence(cfg, row[i - 1], col[j - 1], g[i - 1][j - 1], g[i - 1][j], g[i][j - 1])
  }

  /** Overwriting a cell that is neither (a, b) nor one of its neighbours keeps (a, b) satisfying the recurrence. */
  lemma SwRecurrenceKept(g: seq<seq<int>>, row: seq<Letter>, col: seq<Letter>, cfg: LocalAlignmentConfig, x: nat, y: nat, v: int, a: nat, b: nat)
    requires x < |g| && y < |g[x]|
    requires SatisfiesSwRecurrence(g, row, col, cfg, a, b)
    requires x != a || y != b
    requires x != a - 1 || y != b - 1
    requires x != a - 1 || y != b
    requires x != a || y != b - 1
    ensures SatisfiesSwRecurrence(g[x := g[x][y := v]], row, col, cfg, a, b)
  {
  }

  /** Every interior cell of `g` satisfies the clamped recurrence. */
  ghost predicate SatisfiesSwRecurrenceEverywhere(g: seq<seq<int>>, row: seq<Letter>, col: seq<Letter>, cfg: LocalAlignmentConfig) {
    forall a, b :: 1 <= a <= |row| && 1 <= b <= |col| ==> SatisfiesSwRecurrence(g, row, col, cfg, a, b)
  }

  /**
   * Any grid with zero borders that satisfies the recurrence everywhere holds
   * the reference value in each cell on or above anti-diagonal `n`.
   */
  lemma {:induction false} SwCellsUpTo(row: seq<Letter>, col: seq<Letter>, cfg: LocalAlignmentConfig, g: seq<seq<int>>, n: nat)
    requires |g| == |row| + 1 && Rect(g, |col| + 1) && HasZeroBorders(g, |col| + 1)
    requires SatisfiesSwRecurrenceEverywhere(g, row, col, cfg)
    ensures forall a, b :: 0 <= a <= |row| && 0 <= b <= |col| && a + b <= n ==> g[a][b] == SwScore(row, col, cfg, a, b)
  {
    if n > 0 {
      SwCellsUpTo(row, col, cfg, g, n - 1);
    }
    forall a, b | 0 <= a <= |row| && 0 <= b <= |col| && a + b == n
      ensures g[a][b] == SwScore(row, col, cfg, a, b)
    {
      if a > 0 && b > 0 {
        SwCellFromNeighbours(row, col, cfg, g, a, b);
      }
    }
  }

  /** An interior cell satisfying the recurrence over neighbours equal to the reference matrix's is the reference value. */
  lemma SwCellFromNeighbours(row: seq<Letter>, col: seq<Letter>, cfg: LocalAlignmentConfig, g: seq<seq<int>>, i: nat, j: nat)
    requires 0 < i <= |row| && 0 < j <= |col| && SatisfiesSwRecurrence(g, row, col, cfg, i, j)
    requires g[i - 1][j - 1] == SwScore(row, col, cfg, i - 1, j - 1)
    requires g[i - 1][j] == SwScore(row, col, cfg, i - 1, j)
    requires g[i][j - 1] == SwScore(row, col, cfg, i, j - 1)
    ensures g[i][j] == SwScore(row, col, cfg, i, j)
  {
  }

  /** Zero borders and the clamped recurrence determine the matrix: any grid meeting both is the reference matrix. */
  lemma SwGridUnique(row: seq<Letter>, col: seq<Letter>, cfg: LocalAlignmentConfig, g: seq<seq<int>>)
    requires |g| == |row| + 1 && Rect(g, |col| + 1) && HasZeroBorders(g, |col| + 1)
    requires SatisfiesSwRecurrenceEverywhere(g, row, col, cfg)
    ensures g == SwGrid(row, col, cfg)
  {
    var reference := SwGrid(row, col, cfg);
    SwCellsUpTo(row, col, cfg, g, |row| + |col|);
    forall i | 0 <= i <= |row|
      ensures g[i] == reference[i]
    {
      forall j | 0 <= j <= |col|
        ensures g[i][j] == reference[i][j]
      {
        assert g[i][j] == SwScore(row, col, cfg, i, j);
      }
    }
  }

  /** `compute_sw_matrix_cell`: cell (predI + 1, predJ + 1) from its three neighbours, clamped at 0; nothing else changes. */
  method ComputeSwMatrixCell(row: seq<Letter>, col: seq<Letter>, cfg: LocalAlignmentConfig, matrix: AlignmentMatrix, predI: nat, predJ: nat)
    requires matrix.Valid() && predI + 1 < |matrix.cells| && predJ + 1 < matrix.width
    modifies matrix, matrix.buf
    ensures matrix.Valid()
    ensures matrix.cells == old(matrix.cells)[predI + 1 := old(matrix.cells)[predI + 1][predJ + 1 :=
      SwRecurrence(cfg, LetterAt(row, predI), LetterAt(col, predJ),
        old(matrix.cells)[predI][predJ], old(matrix.cells)[predI][predJ + 1], old(matrix.cells)[predI + 1][predJ])]]
  {
    var topLeft := matrix.At(predI, predJ);
    var top := matrix.At(predI, predJ + 1);
    var left := matrix.At(predI + 1, predJ);

    var rowLetter := LetterAt(row, predI);
    var columnLetter := LetterAt(col, predJ);
    var noGapWeight := if rowLetter == columnLetter then cfg.matchWeight else cfg.mismatchWeight;
    var noGapScore := topLeft + noGapWeight;

    var bestGapNeighbor := Max(top, left);
    var bestGapScore := bestGapNeighbor + cfg.gapWeight;

    matrix.SetAt(predI + 1, predJ + 1, Max(Max(bestGapScore, noGapScore), 0));
  }

  /** Every interior cell with i <= r or j <= c satisfies the recurrence: what the staircase has finished. */
  ghost predicate SwSettled(g: seq<seq<int>>, row: seq<Letter>, col: seq<Letter>, cfg: LocalAlignmentConfig, r: nat, c: nat) {
    forall i, j :: 1 <= i <= |row| && 1 <= j <= |col| && (i <= r || j <= c) ==> SatisfiesSwRecurrence(g, row, col, cfg, i, j)
  }

  /**
   * The first inner loop of `fill_sw_matrix_content`: with every cell of rows
   * up to `baseI` and columns up to `baseJ` final, it computes row `baseI + 1`
   * from column `baseJ + 1` to the end, each cell after its left neighbour.
   */
  method FillSwRowPass(row: seq<Letter>, col: seq<Letter>, cfg: LocalAlignmentConfig, matrix: AlignmentMatrix, baseI: nat, baseJ: nat)
    requires matrix.Valid() && |matrix.cells| == |row| + 1 && matrix.width == |col| + 1
    requires baseI == baseJ && baseI < |row| && baseJ <= |col|
    requires SwSettled(matrix.cells, row, col, cfg, baseI, baseJ)
    modifies matrix, matrix.buf
    ensures matrix.Valid() && |matrix.cells| == |row| + 1
    ensures SameBorders(matrix.cells, old(matrix.cells), |row|, |col|)
    ensures SwSettled(matrix.cells, row, col, cfg, baseI + 1, baseJ)
    ensures SameOutsideRow(matrix.cells, old(matrix.cells), |row|, |col|, baseI + 1, baseJ)
  {
    for j := baseJ to |col|
      invariant matrix.Valid() && |matrix.cells| == |row| + 1
      invariant SameBorders(matrix.cells, old(matrix.cells), |row|, |col|)
      invariant SameOutsideRow(matrix.cells, old(matrix.cells), |row|, |col|, baseI + 1, baseJ)
      invariant forall a, b :: 1 <= a <= |row| && 1 <= b <= |col| && (a <= baseI || b <= baseJ || (a == baseI + 1 && b <= j)) ==>
        SatisfiesSwRecurrence(matrix.cells, row, col, cfg, a, b)
    {
      ghost var before := matrix.cells;
      ComputeSwMatrixCell(row, col, cfg, matrix, baseI, j);
      forall a, b | 1 <= a <= |row| && 1 <= b <= |col| && (a <= baseI || b <= baseJ || (a == baseI + 1 && b <= j))
        ensures SatisfiesSwRecurrence(matrix.cells, row, col, cfg, a, b)
      {
        SwRecurrenceKept(before, row, col, cfg, baseI + 1, j + 1, matrix.cells[baseI + 1][j + 1], a, b);
      }
    }
  }

  /**
   * The second inner loop of `fill_sw_matrix_content`: with rows up to `baseI`
   * and columns up to `baseJ` final, it computes column `baseJ + 1` from row
   * `baseI + 1` to the end, each cell after its top neighbour.
   */
  method FillSwColumnPass(row: seq<Letter>, col: seq<Letter>, cfg: LocalAlignmentConfig, matrix: AlignmentMatrix, baseI: nat, baseJ: nat)
    requires matrix.Valid() && |matrix.cells| == |row| + 1 && matrix.width == |col| + 1
    requires baseI == baseJ + 1 && baseI <= |row| && baseJ < |col|
    requires SwSettled(matrix.cells, row, col, cfg, baseI, baseJ)
    modifies matrix, matrix.buf
    ensures matrix.Valid() && |matrix.cells| == |row| + 1
    ensures SameBorders(matrix.cells, old(matrix.cells), |row|, |col|)
    ensures SwSettled(matrix.cells, row, col, cfg, baseI, baseJ + 1)
    ensures SameOutsideColumn(matrix.cells, old(matrix.cells), |row|, |col|, baseI, baseJ + 1)
  {
    for i := baseI to |row|
      invariant matrix.Valid() && |matrix.cells| == |row| + 1
      invariant SameBorders(matrix.cells, old(matrix.cells), |row|, |col|)
      invariant SameOutsideColumn(matrix.cells, old(matrix.cells), |row|, |col|, baseI, baseJ + 1)
      invariant forall a, b :: 1 <= a <= |row| && 1 <= b <= |col| && (a <= baseI || b <= baseJ || (b == baseJ + 1 && a <= i)) ==>
        SatisfiesSwRecurrence(matrix.cells, row, col, cfg, a, b)
    {
      ghost var before := matrix.cells;
      ComputeSwMatrixCell(row, col, cfg, matrix, i, baseJ);
      forall a, b | 1 <= a <= |row| && 1 <= b <= |col| && (a <= baseI || b <= baseJ || (b == baseJ + 1 && a <= i))
        ensures SatisfiesSwRecurrence(matrix.cells, row, col, cfg, a, b)
      {
        SwRecurrenceKept(before, row, col, cfg, i + 1, baseJ + 1, matrix.cells[i + 1][baseJ + 1], a, b);
      }
    }
  }

  /**
   * `fill_sw_matrix_content`: the same staircase as the global fill; borders
   * are never written. Rust panics when the row sequence is empty and the
   * column sequence is not: pass 0 then writes row 1 of a one-row matrix.
   */
  method FillSwMatrixContent(row: seq<Letter>, col: seq<Letter>, cfg: LocalAlignmentConfig, matrix: AlignmentMatrix)
    requires matrix.Valid() && |matrix.cells| == |row| + 1 && matrix.width == |col| + 1
    requires |row| > 0 || |col| == 0
    modifies matrix, matrix.buf
    ensures matrix.Valid() && |matrix.cells| == |row| + 1
    ensures SameBorders(matrix.cells, old(matrix.cells), |row|, |col|)
    ensures forall i, j :: 1 <= i <= |row| && 1 <= j <= |col| ==> SatisfiesSwRecurrence(matrix.cells, row, col, cfg, i, j)
  {
    var baseI, baseJ := 0, 0;
    while baseJ < |col|
      invariant matrix.Valid() && |matrix.cells| == |row| + 1
      invariant baseI == baseJ <= |col| && (baseJ < |row| || baseJ == |col|)
      invariant SameBorders(matrix.cells, old(matrix.cells), |row|, |col|)
      invariant SwSettled(matrix.cells, row, col, cfg, baseI, baseJ)
      decreases |col| - baseJ
    {
      FillSwRowPass(row, col, cfg, matrix, baseI, baseJ);
      baseI := baseI + 1;

      if baseI >= |row| {
        break;
      }
      FillSwColumnPass(row, col, cfg, matrix, baseI, baseJ);
      baseJ := baseJ + 1;
    }
  }

  /** `compute_sw_matrix`: a fresh zeroed (|row| + 1) by (|col| + 1) matrix holding the reference matrix. */
  method ComputeSwMatrix(row: seq<Letter>, col: seq<Letter>, cfg: LocalAlignmentConfig) returns (matrix: AlignmentMatrix)
    requires |row| > 0 || |col| == 0
    ensures fresh(matrix) && fresh(matrix.buf)
    ensures matrix.Valid() && matrix.width == |col| + 1
    ensures matrix.cells == SwGrid(row, col, cfg)
  {
    var rowCount := |row| + 1;
    var columnCount := |col| + 1;
    matrix := new AlignmentMatrix(rowCount, columnCount);
    FillSwMatrixContent(row, col, cfg, matrix);
    SwGridUnique(row, col, cfg, matrix.cells);
  }

  /** `traceback_sw_top_left`: both windows start one earlier, and the letters at (i, j) are pushed. */
  function TracebackSwTopLeft(row: seq<Letter>, col: seq<Letter>, result: LocalAlignmentResult, i: nat, j: nat): (r: LocalAlignmentResult)
    requires result.alignedRowSeq.start > 0 && result.alignedColumnSeq.start > 0
    ensures r.alignedRowSeq == LocallyAlignedSeq(result.alignedRowSeq.start - 1, result.alignedRowSeq.end, result.alignedRowSeq.data + [LetterAt(row, i)])
    ensures r.alignedColumnSeq == LocallyAlignedSeq(result.alignedColumnSeq.start - 1, result.alignedColumnSeq.end, result.alignedColumnSeq.data + [LetterAt(col, j)])
    ensures r.score == result.score
  {
    var r, c := result.alignedRowSeq, result.alignedColumnSeq;
    result.(
      alignedRowSeq := LocallyAlignedSeq(r.start - 1, r.end, r.data + [LetterAt(row, i)]),
      alignedColumnSeq := LocallyAlignedSeq(c.start - 1, c.end, c.data + [LetterAt(col, j)]))
  }

  /** `traceback_sw_top`: the row window starts one earlier, its letter at i is pushed against a gap. */
  function TracebackSwTop(row: seq<Letter>, result: LocalAlignmentResult, i: nat): (r: LocalAlignmentResult)
    requires result.alignedRowSeq.start > 0
    ensures r.alignedRowSeq == LocallyAlignedSeq(result.alignedRowSeq.start - 1, result.alignedRowSeq.end, result.alignedRowSeq.data + [LetterAt(row, i)])
    ensures r.alignedColumnSeq == result.alignedColumnSeq.(data := result.alignedColumnSeq.data + [Gap])
    ensures r.score == result.score
  {
    var r, c := result.alignedRowSeq, result.alignedColumnSeq;
    result.(
      alignedRowSeq := LocallyAlignedSeq(r.start - 1, r.end, r.data + [LetterAt(row, i)]),
      alignedColumnSeq := c.(data := c.data + [Gap]))
  }

  /** `traceback_sw_left`: the column window starts one earlier, a gap is pushed against its letter at j. */
  function TracebackSwLeft(col: seq<Letter>, result: LocalAlignmentResult, j: nat): (r: LocalAlignmentResult)
    requires result.alignedColumnSeq.start > 0
    ensures r.alignedRowSeq == result.alignedRowSeq.(data := result.alignedRowSeq.data + [Gap])
    ensures r.alignedColumnSeq == LocallyAlignedSeq(result.alignedColumnSeq.start - 1, result.alignedColumnSeq.end, result.alignedColumnSeq.data + [LetterAt(col, j)])
    ensures r.score == result.score
  {
    var r, c := result.alignedRowSeq, result.alignedColumnSeq;
    result.(
      alignedRowSeq := r.(data := r.data + [Gap]),
      alignedColumnSeq := LocallyAlignedSeq(c.start - 1, c.end, c.data + [LetterAt(col, j)]))
  }

  /**
   * The move `traceback_best_sw_alignment` makes from an interior cell (i, j):
   * to the top-left neighbour if it is the largest neighbour or is 0, else to
   * the top one if it is the largest or is 0, else to the left one.
   */
  function SwMoveAt(g: seq<seq<int>>, w: nat, i: nat, j: nat): (m: Move)
    requires Rect(g, w) && 0 < i < |g| && 0 < j < w
    ensures var topLeft, top, left := g[i - 1][j - 1], g[i - 1][j], g[i][j - 1];
      (m == Diagonal <==> (topLeft >= top && topLeft >= left) || topLeft == 0) &&
      (m == Up <==> !((topLeft >= top && topLeft >= left) || topLeft == 0) && ((top > topLeft && top >= left) || top == 0)) &&
      (m == Left <==> !((topLeft >= top && topLeft >= left) || topLeft == 0) && !((top > topLeft && top >= left) || top == 0))
  {
    var topLeft, top, left := g[i - 1][j - 1], g[i - 1][j], g[i][j - 1];
    var maximum := Max(Max(topLeft, top), left);
    if topLeft == maximum || topLeft == 0 then Diagonal
    else if top == maximum || top == 0 then Up
    else Left
  }

  /** The letters a traceback pushed, in reading order, and the zero cell where it stopped. */
  datatype SwTrace = SwTrace(rowData: seq<Letter>, columnData: seq<Letter>, stopI: nat, stopJ: nat)

  /**
   * The traceback of `traceback_best_sw_alignment` from cell (i, j), as a
   * function: it follows `SwMoveAt` until it stands on a cell holding 0. With
   * zero borders a nonzero cell is interior, so every move stays inside.
   */
  function SwTraceback(g: seq<seq<int>>, w: nat, row: seq<Letter>, col: seq<Letter>, i: nat, j: nat): (t: SwTrace)
    requires Rect(g, w) && i < |g| && j < w && HasZeroBorders(g, w)
    ensures |t.rowData| == |t.columnData|
    ensures t.stopI <= i && t.stopJ <= j && g[t.stopI][t.stopJ] == 0
    decreases i + j
  {
    if g[i][j] == 0 then SwTrace([], [], i, j)
    else
      var m := SwMoveAt(g, w, i, j);
      var p := StepBack(m, i, j);
      var t := SwTraceback(g, w, row, col, p.0, p.1);
      SwTrace(t.rowData + [RowLetter(m, row, i)], t.columnData + [ColumnLetter(m, col, j)], t.stopI, t.stopJ)
  }

  /** The result `traceback_best_sw_alignment` builds from the start cell (i, j): the traced windows and the cell's value. */
  function SwAlignmentFrom(g: seq<seq<int>>, w: nat, row: seq<Letter>, col: seq<Letter>, i: nat, j: nat): (r: LocalAlignmentResult)
    requires Rect(g, w) && i < |g| && j < w && HasZeroBorders(g, w)
    ensures r.score == g[i][j]
    ensures r.alignedRowSeq.end == i && r.alignedColumnSeq.end == j
    ensures r.alignedRowSeq.start <= i && r.alignedColumnSeq.start <= j && g[r.alignedRowSeq.start][r.alignedColumnSeq.start] == 0
    ensures |r.alignedRowSeq.data| == |r.alignedColumnSeq.data|
  {
    var t := SwTraceback(g, w, row, col, i, j);
    LocalAlignmentResult(LocallyAlignedSeq(t.stopI, i, t.rowData), LocallyAlignedSeq(t.stopJ, j, t.columnData), g[i][j])
  }

  /** Standing on a zero cell the traceback pushes nothing. */
  lemma SwTracebackAtZero(g: seq<seq<int>>, w: nat, row: seq<Letter>, col: seq<Letter>, i: nat, j: nat)
    requires Rect(g, w) && i < |g| && j < w && HasZeroBorders(g, w) && g[i][j] == 0
    ensures SwTraceback(g, w, row, col, i, j) == SwTrace([], [], i, j)
  {
  }

  /**
   * The traceback a loop in progress will finish: the part still to be traced
   * from the current cell, followed by the letters pushed so far, which sit
   * in back-to-front order.
   */
  function SwJoined(rest: SwTrace, pushed: LocalAlignmentResult): SwTrace {
    SwTrace(rest.rowData + Reversed(pushed.alignedRowSeq.data), rest.columnData + Reversed(pushed.alignedColumnSeq.data),
      rest.stopI, rest.stopJ)
  }

  /** One traceback move keeps the traceback a loop in progress will finish. */
  lemma SwInvariantStep(g: seq<seq<int>>, w: nat, row: seq<Letter>, col: seq<Letter>, i: nat, j: nat,
                        whole: SwTrace, pushed: LocalAlignmentResult, next: LocalAlignmentResult)
    requires Rect(g, w) && 0 < i < |g| && 0 < j < w && HasZeroBorders(g, w) && g[i][j] != 0
    requires whole == SwJoined(SwTraceback(g, w, row, col, i, j), pushed)
    requires var m := SwMoveAt(g, w, i, j);
      next.alignedRowSeq.data == pushed.alignedRowSeq.data + [RowLetter(m, row, i)] &&
      next.alignedColumnSeq.data == pushed.alignedColumnSeq.data + [ColumnLetter(m, col, j)]
    ensures var p := StepBack(SwMoveAt(g, w, i, j), i, j);
      whole == SwJoined(SwTraceback(g, w, row, col, p.0, p.1), next)
  {
    var m := SwMoveAt(g, w, i, j);
    var p := StepBack(m, i, j);
    var rest := SwTraceback(g, w, row, col, p.0, p.1);
    PushAcross(rest.rowData, RowLetter(m, row, i), pushed.alignedRowSeq.data);
    PushAcross(rest.columnData, ColumnLetter(m, col, j), pushed.alignedColumnSeq.data);
  }

  /**
   * One pass of the loop of `traceback_best_sw_alignment` at a nonzero cell
   * (i, j): it reads the three neighbours, picks the move and updates the
   * result through the matching `traceback_sw_*` helper. The windows start at
   * the current cell, their ends and the score do not change, and the letters
   * pushed so far and the traceback still to run keep making up the same whole.
   */
  method PushSwStep(row: seq<Letter>, col: seq<Letter>, matrix: AlignmentMatrix, i: nat, j: nat,
                    ghost whole: SwTrace, result: LocalAlignmentResult)
    returns (nextI: nat, nextJ: nat, next: LocalAlignmentResult)
    requires matrix.Valid() && i < |matrix.cells| && j < matrix.width && HasZeroBorders(matrix.cells, matrix.width)
    requires matrix.cells[i][j] != 0
    requires result.alignedRowSeq.start == i && result.alignedColumnSeq.start == j
    requires whole == SwJoined(SwTraceback(matrix.cells, matrix.width, row, col, i, j), result)
    ensures nextI <= i && nextJ <= j && nextI + nextJ < i + j
    ensures next.alignedRowSeq.start == nextI && next.alignedColumnSeq.start == nextJ
    ensures next.alignedRowSeq.end == result.alignedRowSeq.end && next.alignedColumnSeq.end == result.alignedColumnSeq.end
    ensures next.score == result.score
    ensures whole == SwJoined(SwTraceback(matrix.cells, matrix.width, row, col, nextI, nextJ), next)
  {
    var topLeft := matrix.At(i - 1, j - 1);
    var top := matrix.At(i - 1, j);
    var left := matrix.At(i, j - 1);
    var maximum := Max(Max(topLeft, top), left);

    if i > 0 && j > 0 && (topLeft == maximum || topLeft == 0) {
      nextI, nextJ := i - 1, j - 1;
      next := TracebackSwTopLeft(row, col, result, nextI, nextJ);
    } else if i > 0 && (top == maximum || top == 0) {
      nextI, nextJ := i - 1, j;
      next := TracebackSwTop(row, result, nextI);
    } else {
      nextI, nextJ := i, j - 1;
      next := TracebackSwLeft(col, result, nextJ);
    }
    SwInvariantStep(matrix.cells, matrix.width, row, col, i, j, whole, result, next);
  }

  /**
   * The set-up and the loop of `traceback_best_sw_alignment` from the start
   * cell (i, j): both windows start empty at the cell, the score is the
   * cell's value, and one column is pushed per step until a zero cell. The
   * pushed letters, read backwards, are the traceback from (i, j), and the
   * windows start where it stopped.
   */
  method PushSwTraceback(row: seq<Letter>, col: seq<Letter>, matrix: AlignmentMatrix, i: nat, j: nat)
    returns (pushed: LocalAlignmentResult)
    requires matrix.Valid() && i < |matrix.cells| && j < matrix.width && HasZeroBorders(matrix.cells, matrix.width)
    ensures var t := SwTraceback(matrix.cells, matrix.width, row, col, i, j);
      Reversed(pushed.alignedRowSeq.data) == t.rowData && Reversed(pushed.alignedColumnSeq.data) == t.columnData &&
      pushed.alignedRowSeq.start == t.stopI && pushed.alignedColumnSeq.start == t.stopJ &&
      pushed.alignedRowSeq.end == i && pushed.alignedColumnSeq.end == j &&
      pushed.score == matrix.cells[i][j]
  {
    ghost var whole := SwTraceback(matrix.cells, matrix.width, row, col, i, j);
    var currentI, currentJ := i, j;
    pushed := LocalAlignmentResult(LocallyAlignedSeq(i, i, []), LocallyAlignedSeq(j, j, []), matrix.At(i, j));
    assert whole.rowData + [] == whole.rowData && whole.columnData + [] == whole.columnData;

    while matrix.At(currentI, currentJ) != 0
      invariant currentI <= i && currentJ <= j
      invariant pushed.alignedRowSeq.start == currentI && pushed.alignedColumnSeq.start == currentJ
      invariant pushed.alignedRowSeq.end == i && pushed.alignedColumnSeq.end == j && pushed.score == matrix.cells[i][j]
      invariant whole == SwJoined(SwTraceback(matrix.cells, matrix.width, row, col, currentI, currentJ), pushed)
      decreases currentI + currentJ
    {
      currentI, currentJ, pushed := PushSwStep(row, col, matrix, currentI, currentJ, whole, pushed);
    }
    SwTracebackAtZero(matrix.cells, matrix.width, row, col, currentI, currentJ);
    assert [] + Reversed(pushed.alignedRowSeq.data) == Reversed(pushed.alignedRowSeq.data);
    assert [] + Reversed(pushed.alignedColumnSeq.data) == Reversed(pushed.alignedColumnSeq.data);
  }

  /**
   * `traceback_best_sw_alignment`: the traceback from the last maximal cell
   * (`argmax_rev`, falling back to the bottom-right cell for an empty grid),
   * its two data vectors reversed into reading order. The windows end at
   * that cell, and the result is the alignment traced from it.
   */
  method TracebackBestSwAlignment(row: seq<Letter>, col: seq<Letter>, matrix: AlignmentMatrix)
    returns (result: LocalAlignmentResult)
    requires matrix.Valid() && |matrix.cells| > 0 && matrix.width > 0 && HasZeroBorders(matrix.cells, matrix.width)
    ensures IsLastMax(matrix.cells, matrix.width, result.alignedRowSeq.end, result.alignedColumnSeq.end)
    ensures result == SwAlignmentFrom(matrix.cells, matrix.width, row, col, result.alignedRowSeq.end, result.alignedColumnSeq.end)
  {
    var best := matrix.ArgmaxRev();
    var maxI, maxJ := matrix.Height() - 1, matrix.width - 1;
    if best.Some? {
      maxI, maxJ := best.value.0, best.value.1;
    }
    var pushed := PushSwTraceback(row, col, matrix, maxI, maxJ);
    result := pushed.(
      alignedRowSeq := pushed.alignedRowSeq.(data := Reversed(pushed.alignedRowSeq.data)),
      alignedColumnSeq := pushed.alignedColumnSeq.(data := Reversed(pushed.alignedColumnSeq.data)));
  }

  /**
   * `best_smith_waterman`: the traceback of the reference matrix from its last
   * maximal cell. Rust panics for an empty row sequence against a non-empty
   * column sequence (see `FillSwMatrixContent`).
   */
  method BestSmithWaterman(row: seq<Letter>, col: seq<Letter>, cfg: LocalAlignmentConfig) returns (result: LocalAlignmentResult)
    requires |row| > 0 || |col| == 0
    ensures IsLastMax(SwGrid(row, col, cfg), |col| + 1, result.alignedRowSeq.end, result.alignedColumnSeq.end)
    ensures result == SwAlignmentFrom(SwGrid(row, col, cfg), |col| + 1, row, col, result.alignedRowSeq.end, result.alignedColumnSeq.end)
  {
    var matrix := ComputeSwMatrix(row, col, cfg);
    result := TracebackBestSwAlignment(row, col, matrix);
  }

  /** Over gap-free inputs every column a traceback pushes holds at least one letter. */
  lemma {:induction false} SwTracebackColumns(g: seq<seq<int>>, w: nat, row: seq<Letter>, col: seq<Letter>, i: nat, j: nat)
    requires Rect(g, w) && i < |g| && j < w && HasZeroBorders(g, w)
    requires NoGap(row) && NoGap(col) && i <= |row| && j <= |col|
    ensures var t := SwTraceback(g, w, row, col, i, j);
      NoGapColumns(t.rowData, t.columnData)
    decreases i + j
  {
    if g[i][j] != 0 {
      var m := SwMoveAt(g, w, i, j);
      var p := StepBack(m, i, j);
      var before := SwTraceback(g, w, row, col, p.0, p.1);
      SwTracebackColumns(g, w, row, col, p.0, p.1);
      MovePushesLetter(m, row, col, i, j);
      NoGapColumnsPush(before.rowData, before.columnData, RowLetter(m, row, i), ColumnLetter(m, col, j));
    }
  }

  /**
   * Over gap-free inputs the traced row letters without their gaps are the
   * slice of the row between the stop index and the start index, and
   * likewise for the column.
   */
  lemma {:induction false} SwTracebackLetters(g: seq<seq<int>>, w: nat, row: seq<Letter>, col: seq<Letter>, i: nat, j: nat)
    requires Rect(g, w) && i < |g| && j < w && HasZeroBorders(g, w)
    requires NoGap(row) && NoGap(col) && i <= |row| && j <= |col|
    ensures var t := SwTraceback(g, w, row, col, i, j);
      RemoveGaps(t.rowData) == row[t.stopI..i] && RemoveGaps(t.columnData) == col[t.stopJ..j]
    decreases i + j
  {
    if g[i][j] != 0 {
      var m := SwMoveAt(g, w, i, j);
      var p := StepBack(m, i, j);
      SwTracebackLetters(g, w, row, col, p.0, p.1);
      var before := SwTraceback(g, w, row, col, p.0, p.1);
      var after := SwTraceback(g, w, row, col, i, j);
      LettersStep(before.rowData, after.rowData, row, before.stopI, p.0, i);
      LettersStep(before.columnData, after.columnData, col, before.stopJ, p.1, j);
    } else {
      assert row[i..i] == [] && col[j..j] == [];
    }
  }

  /**
   * The windows of the result: over gap-free inputs each side's data is an
   * alignment of the window `[start, end)` of its input, the window ends at
   * the start cell, its length is the number of letters in the data, the two
   * data vectors have equal length, and no column is a gap against a gap.
   */
  lemma SwAlignmentWindows(g: seq<seq<int>>, w: nat, row: seq<Letter>, col: seq<Letter>, i: nat, j: nat)
    requires Rect(g, w) && i < |g| && j < w && HasZeroBorders(g, w)
    requires NoGap(row) && NoGap(col) && i <= |row| && j <= |col|
    ensures var r := SwAlignmentFrom(g, w, row, col, i, j);
      var rs, cs := r.alignedRowSeq, r.alignedColumnSeq;
      rs.start <= rs.end == i && cs.start <= cs.end == j &&
      IsAlignmentOf(rs.data, cs.data, row[rs.start..rs.end], col[cs.start..cs.end]) &&
      rs.end - rs.start == |RemoveGaps(rs.data)| && cs.end - cs.start == |RemoveGaps(cs.data)| &&
      r.score == g[i][j]
  {
    SwTracebackColumns(g, w, row, col, i, j);
    SwTracebackLetters(g, w, row, col, i, j);
  }

  /** The weight of one aligned column (a gap on either side costs `gapWeight`). */
  function ColumnWeight(cfg: LocalAlignmentConfig, a: Letter, b: Letter): (r: int)
    ensures a == Gap || b == Gap ==> r == cfg.gapWeight
    ensures a != Gap && b != Gap ==> r == NoGapWeight(cfg, a, b)
  {
    if a == Gap || b == Gap then cfg.gapWeight
    else if a == b then cfg.matchWeight
    else cfg.mismatchWeight
  }

  /** The score of two aligned sequences, summed column by column. */
  function ColumnsScore(cfg: LocalAlignmentConfig, a: seq<Letter>, b: seq<Letter>): int
    requires |a| == |b|
  {
    if |a| == 0 then 0
    else ColumnsScore(cfg, a[..|a| - 1], b[..|b| - 1]) + ColumnWeight(cfg, a[|a| - 1], b[|b| - 1])
  }

  /** The score of two aligned sequences grows by the weight of the column appended to them. */
  lemma ColumnsScorePush(cfg: LocalAlignmentConfig, a: seq<Letter>, b: seq<Letter>, x: Letter, y: Letter)
    requires |a| == |b|
    ensures ColumnsScore(cfg, a + [x], b + [y]) == ColumnsScore(cfg, a, b) + ColumnWeight(cfg, x, y)
  {
    assert (a + [x])[..|a|] == a && (b + [y])[..|b|] == b;
  }

  /**
   * Optimality of the reference matrix: with a non-positive gap weight, no
   * alignment of windows `row[k..i]` and `col[l..j]` ending at (i, j) scores
   * more than `SwScore(i, j)`. The three lemmas after it are its cases, one
   * per last column.
   */
  lemma {:induction false} SwScoreOptimal(row: seq<Letter>, col: seq<Letter>, cfg: LocalAlignmentConfig,
                                          k: nat, i: nat, l: nat, j: nat, a: seq<Letter>, b: seq<Letter>)
    requires NoGap(row) && NoGap(col) && k <= i <= |row| && l <= j <= |col| && cfg.gapWeight <= 0
    requires IsAlignmentOf(a, b, row[k..i], col[l..j])
    ensures ColumnsScore(cfg, a, b) <= SwScore(row, col, cfg, i, j)
    decreases |a|, 1
  {
    var n := |a|;
    if n > 0 {
      AlignmentWindowPop(a, b, row, col, k, i, l, j);
      if a[n - 1] != Gap && b[n - 1] != Gap {
        SwDiagonalStep(row, col, cfg, k, i, l, j, a, b);
      } else if a[n - 1] != Gap {
        SwUpStep(row, col, cfg, k, i, l, j, a, b);
      } else {
        SwLeftStep(row, col, cfg, k, i, l, j, a, b);
      }
    }
  }

  /**
   * An alignment of windows ending at (i, j) whose last column is the cell's
   * two letters scores at most the cell: its other columns score at most the
   * top-left neighbour.
   */
  lemma {:induction false} SwDiagonalStep(row: seq<Letter>, col: seq<Letter>, cfg: LocalAlignmentConfig,
                                          k: nat, i: nat, l: nat, j: nat, a: seq<Letter>, b: seq<Letter>)
    requires NoGap(row) && NoGap(col) && k < i <= |row| && l < j <= |col| && cfg.gapWeight <= 0
    requires |a| == |b| > 0 && a[|a| - 1] == row[i - 1] && b[|b| - 1] == col[j - 1]
    requires IsAlignmentOf(a[..|a| - 1], b[..|b| - 1], row[k..i - 1], col[l..j - 1])
    ensures ColumnsScore(cfg, a, b) <= SwScore(row, col, cfg, i, j)
    decreases |a|, 0
  {
    SwScoreOptimal(row, col, cfg, k, i - 1, l, j - 1, a[..|a| - 1], b[..|b| - 1]);
  }

  /**
   * With a non-positive gap weight, an alignment of windows ending at (i, j)
   * whose last column is the row letter against a gap scores at most the
   * cell: its other columns score at most the top neighbour.
   */
  lemma {:induction false} SwUpStep(row: seq<Letter>, col: seq<Letter>, cfg: LocalAlignmentConfig,
                                    k: nat, i: nat, l: nat, j: nat, a: seq<Letter>, b: seq<Letter>)
    requires NoGap(row) && NoGap(col) && k < i <= |row| && l <= j <= |col| && cfg.gapWeight <= 0
    requires |a| == |b| > 0 && a[|a| - 1] == row[i - 1] && b[|b| - 1] == Gap
    requires IsAlignmentOf(a[..|a| - 1], b[..|b| - 1], row[k..i - 1], col[l..j])
    ensures ColumnsScore(cfg, a, b) <= SwScore(row, col, cfg, i, j)
    decreases |a|, 0
  {
    SwScoreOptimal(row, col, cfg, k, i - 1, l, j, a[..|a| - 1], b[..|b| - 1]);
  }

  /**
   * With a non-positive gap weight, an alignment of windows ending at (i, j)
   * whose last column is a gap against the column letter scores at most the
   * cell: its other columns score at most the left neighbour.
   */
  lemma {:induction false} SwLeftStep(row: seq<Letter>, col: seq<Letter>, cfg: LocalAlignmentConfig,
                                      k: nat, i: nat, l: nat, j: nat, a: seq<Letter>, b: seq<Letter>)
    requires NoGap(row) && NoGap(col) && k <= i <= |row| && l < j <= |col| && cfg.gapWeight <= 0
    requires |a| == |b| > 0 && a[|a| - 1] == Gap && b[|b| - 1] == col[j - 1]
    requires IsAlignmentOf(a[..|a| - 1], b[..|b| - 1], row[k..i], col[l..j - 1])
    ensures ColumnsScore(cfg, a, b) <= SwScore(row, col, cfg, i, j)
    decreases |a|, 0
  {
    SwScoreOptimal(row, col, cfg, k, i, l, j - 1, a[..|a| - 1], b[..|b| - 1]);
  }

  /**
   * The score `best_smith_waterman` reports is the best local score: with a
   * non-positive gap weight, it is at least the score of every alignment of
   * any window of the row against any window of the column.
   */
  lemma SwAlignmentScoreOptimal(row: seq<Letter>, col: seq<Letter>, cfg: LocalAlignmentConfig, i: nat, j: nat,
                                k: nat, i2: nat, l: nat, j2: nat, a: seq<Letter>, b: seq<Letter>)
    requires NoGap(row) && NoGap(col) && cfg.gapWeight <= 0
    requires IsLastMax(SwGrid(row, col, cfg), |col| + 1, i, j)
    requires k <= i2 <= |row| && l <= j2 <= |col| && IsAlignmentOf(a, b, row[k..i2], col[l..j2])
    ensures ColumnsScore(cfg, a, b) <= SwAlignmentFrom(SwGrid(row, col, cfg), |col| + 1, row, col, i, j).score
  {
    var g := SwGrid(row, col, cfg);
    SwScoreOptimal(row, col, cfg, k, i2, l, j2, a, b);
    assert g[i2][j2] <= g[i][j];
  }

  /**
   * The move the traceback is meant to make from an interior cell (i, j) of
   * the reference matrix: back to a neighbour whose value, plus the weight of
   * the column the move pushes, is the cell's value; the diagonal first, then
   * the top one, then the left one.
   */
  function SwOptimalMove(row: seq<Letter>, col: seq<Letter>, cfg: LocalAlignmentConfig, i: nat, j: nat): (m: Move)
    requires 0 < i <= |row| && 0 < j <= |col|
    ensures CanMove(m, i, j)
    ensures m == Diagonal <==> SwScore(row, col, cfg, i, j) == SwScore(row, col, cfg, i - 1, j - 1) + NoGapWeight(cfg, row[i - 1], col[j - 1])
  {
    if SwScore(row, col, cfg, i, j) == SwScore(row, col, cfg, i - 1, j - 1) + NoGapWeight(cfg, row[i - 1], col[j - 1]) then Diagonal
    else if SwScore(row, col, cfg, i, j) == SwScore(row, col, cfg, i - 1, j) + cfg.gapWeight then Up
    else Left
  }

  /**
   * Over gap-free inputs, from a cell holding more than 0 the corrected move
   * goes back to a neighbour whose value plus the weight of the pushed column
   * is the cell's value.
   */
  lemma SwOptimalMoveSound(row: seq<Letter>, col: seq<Letter>, cfg: LocalAlignmentConfig, i: nat, j: nat)
    requires NoGap(row) && NoGap(col) && 0 < i <= |row| && 0 < j <= |col| && SwScore(row, col, cfg, i, j) > 0
    ensures var m := SwOptimalMove(row, col, cfg, i, j);
      var p, a, b := StepBack(m, i, j), RowLetter(m, row, i), ColumnLetter(m, col, j);
      SwScore(row, col, cfg, i, j) == SwScore(row, col, cfg, p.0, p.1) + ColumnWeight(cfg, a, b)
  {
    assert row[i - 1] != Gap && col[j - 1] != Gap;
  }

  /**
   * The traceback the algorithm is meant to perform: from cell (i, j) of the
   * reference matrix it follows `SwOptimalMove` until it stands on a cell
   * holding 0.
   */
  function SwOptimalTraceback(row: seq<Letter>, col: seq<Letter>, cfg: LocalAlignmentConfig, i: nat, j: nat): (t: SwTrace)
    requires i <= |row| && j <= |col|
    ensures |t.rowData| == |t.columnData|
    ensures t.stopI <= i && t.stopJ <= j && SwScore(row, col, cfg, t.stopI, t.stopJ) == 0
    decreases i + j
  {
    if SwScore(row, col, cfg, i, j) == 0 then SwTrace([], [], i, j)
    else
      var m := SwOptimalMove(row, col, cfg, i, j);
      var p := StepBack(m, i, j);
      var t := SwOptimalTraceback(row, col, cfg, p.0, p.1);
      SwTrace(t.rowData + [RowLetter(m, row, i)], t.columnData + [ColumnLetter(m, col, j)], t.stopI, t.stopJ)
  }

  /**
   * Over gap-free inputs the corrected traceback aligns the windows between
   * its stop cell and its start cell, and the column-by-column score of what
   * it returns is the start cell's value.
   */
  lemma {:induction false} SwOptimalTracebackAligns(row: seq<Letter>, col: seq<Letter>, cfg: LocalAlignmentConfig, i: nat, j: nat)
    requires NoGap(row) && NoGap(col) && i <= |row| && j <= |col|
    ensures var t := SwOptimalTraceback(row, col, cfg, i, j);
      IsAlignmentOf(t.rowData, t.columnData, row[t.stopI..i], col[t.stopJ..j]) &&
      ColumnsScore(cfg, t.rowData, t.columnData) == SwScore(row, col, cfg, i, j)
    decreases i + j
  {
    if SwScore(row, col, cfg, i, j) == 0 {
      assert row[i..i] == [] && col[j..j] == [];
    } else {
      var m := SwOptimalMove(row, col, cfg, i, j);
      var p, a, b := StepBack(m, i, j), RowLetter(m, row, i), ColumnLetter(m, col, j);
      var before := SwOptimalTraceback(row, col, cfg, p.0, p.1);
      SwOptimalTracebackAligns(row, col, cfg, p.0, p.1);
      SwOptimalMoveSound(row, col, cfg, i, j);
      MovePushesLetter(m, row, col, i, j);
      ColumnsScorePush(cfg, before.rowData, before.columnData, a, b);
      NoGapColumnsPush(before.rowData, before.columnData, a, b);
      LettersStep(before.rowData, before.rowData + [a], row, before.stopI, p.0, i);
      LettersStep(before.columnData, before.columnData + [b], col, before.stopJ, p.1, j);
    }
  }

  /**
   * Hence, with a non-positive gap weight, the corrected traceback from the
   * last maximal cell returns an optimal local alignment: it aligns two
   * windows, and no alignment of any windows scores more.
   */
  lemma SwOptimalTracebackBest(row: seq<Letter>, col: seq<Letter>, cfg: LocalAlignmentConfig, i: nat, j: nat,
                               k: nat, i2: nat, l: nat, j2: nat, a: seq<Letter>, b: seq<Letter>)
    requires NoGap(row) && NoGap(col) && cfg.gapWeight <= 0
    requires IsLastMax(SwGrid(row, col, cfg), |col| + 1, i, j)
    requires k <= i2 <= |row| && l <= j2 <= |col| && IsAlignmentOf(a, b, row[k..i2], col[l..j2])
    ensures var t := SwOptimalTraceback(row, col, cfg, i, j);
      IsAlignmentOf(t.rowData, t.columnData, row[t.stopI..i], col[t.stopJ..j]) &&
      ColumnsScore(cfg, a, b) <= ColumnsScore(cfg, t.rowData, t.columnData)
  {
    var g := SwGrid(row, col, cfg);
    SwOptimalTracebackAligns(row, col, cfg, i, j);
    SwScoreOptimal(row, col, cfg, k, i2, l, j2, a, b);
    assert g[i2][j2] <= g[i][j];
  }

  /** The weights of the worked example below: a match earns 3, a mismatch costs 3, a gap costs 1. */
  const ExampleConfig: LocalAlignmentConfig := LocalAlignmentConfig(3, -3, -1)

  /**
   * The reference matrix of a row `a x b` against a column `a b` of three
   * distinct letters under `ExampleConfig`: rows [0 0 0], [0 3 2], [0 2 1],
   * [0 1 5]; its only maximum is the bottom-right cell.
   */
  lemma SwExampleGrid(a: Letter, x: Letter, b: Letter)
    requires a != x && x != b && a != b
    ensures var g := SwGrid([a, x, b], [a, b], ExampleConfig);
      g == [[0, 0, 0], [0, 3, 2], [0, 2, 1], [0, 1, 5]] && IsLastMax(g, 3, 3, 2)
  {
    var row, col, cfg := [a, x, b], [a, b], ExampleConfig;
    assert SwScore(row, col, cfg, 1, 1) == 3;
    assert SwScore(row, col, cfg, 1, 2) == 2;
    assert SwScore(row, col, cfg, 2, 1) == 2;
    assert SwScore(row, col, cfg, 2, 2) == 1;
    assert SwScore(row, col, cfg, 3, 1) == 1;
    assert SwScore(row, col, cfg, 3, 2) == 5;
    var g := SwGrid(row, col, cfg);
    assert g[0] == [0, 0, 0] && g[1] == [0, 3, 2] && g[2] == [0, 2, 1] && g[3] == [0, 1, 5];
  }

  /**
   * As written, the traceback also moves diagonally whenever the top-left
   * neighbour holds 0, even when the cell's value came from a gap. On the
   * example it pushes `x` against `a` where the optimal path opened a gap:
   * the result reports 5 for an alignment whose columns score 0.
   */
  lemma SwTracebackMisreportsScore(a: Letter, x: Letter, b: Letter)
    requires a != x && x != b && a != b && a != Gap && x != Gap && b != Gap
    ensures var row, col := [a, x, b], [a, b];
      var r := SwAlignmentFrom(SwGrid(row, col, ExampleConfig), 3, row, col, 3, 2);
      IsLastMax(SwGrid(row, col, ExampleConfig), 3, 3, 2) &&
      r == LocalAlignmentResult(LocallyAlignedSeq(1, 3, [x, b]), LocallyAlignedSeq(0, 2, [a, b]), 5) &&
      ColumnsScore(ExampleConfig, r.alignedRowSeq.data, r.alignedColumnSeq.data) == 0
  {
    var row, col := [a, x, b], [a, b];
    var g := SwGrid(row, col, ExampleConfig);
    SwExampleGrid(a, x, b);
    assert SwMoveAt(g, 3, 3, 2) == Diagonal && SwMoveAt(g, 3, 2, 1) == Diagonal;
    assert SwTraceback(g, 3, row, col, 1, 0) == SwTrace([], [], 1, 0);
    assert SwTraceback(g, 3, row, col, 2, 1) == SwTrace([x], [a], 1, 0);
    PairOfSingletons(x, b);
    PairOfSingletons(a, b);
    ColumnsScorePush(ExampleConfig, [], [], x, a);
    ColumnsScorePush(ExampleConfig, [x], [a], b, b);
    assert [] + [x] == [x] && [] + [a] == [a];
  }

  /** The corrected traceback on the same example opens the gap and returns an alignment whose columns score the reported 5. */
  lemma SwOptimalTracebackExample(a: Letter, x: Letter, b: Letter)
    requires a != x && x != b && a != b && a != Gap && x != Gap && b != Gap
    ensures var t := SwOptimalTraceback([a, x, b], [a, b], ExampleConfig, 3, 2);
      t == SwTrace([a, x, b], [a, Gap, b], 0, 0) &&
      ColumnsScore(ExampleConfig, t.rowData, t.columnData) == 5 == SwScore([a, x, b], [a, b], ExampleConfig, 3, 2)
  {
    var row, col, cfg := [a, x, b], [a, b], ExampleConfig;
    SwExampleGrid(a, x, b);
    var g := SwGrid(row, col, cfg);
    assert SwScore(row, col, cfg, 3, 2) == 5 && SwScore(row, col, cfg, 2, 1) == 2 && SwScore(row, col, cfg, 1, 1) == 3;
    assert SwOptimalMove(row, col, cfg, 3, 2) == Diagonal;
    assert SwOptimalMove(row, col, cfg, 2, 1) == Up;
    assert SwOptimalMove(row, col, cfg, 1, 1) == Diagonal;
    assert SwOptimalTraceback(row, col, cfg, 1, 1) == SwTrace([a], [a], 0, 0);
    PairOfSingletons(a, x);
    PairOfSingletons(a, Gap);
    assert SwOptimalTraceback(row, col, cfg, 2, 1) == SwTrace([a, x], [a, Gap], 0, 0);
    assert [a, x] + [b] == [a, x, b] && [a, Gap] + [b] == [a, Gap, b];
    SwOptimalTracebackAligns(row, col, cfg, 3, 2);
  }

  /** The weights of the unit test of `best_smith_waterman`: a match earns 3, a mismatch costs 3, a gap costs 2. */
  const EasyCaseConfig: LocalAlignmentConfig := LocalAlignmentConfig(3, -3, -2)

  /** The letters of that test: four distinct letters, none of them the gap. */
  predicate EasyCaseLetters(g: Letter, t: Letter, a: Letter, c: Letter) {
    g != t && g != a && g != c && t != a && t != c && a != c && g != Gap && t != Gap && a != Gap && c != Gap
  }

  /** The inputs of that test, "GGTTGACTA" against "TGTTACGG", letter by letter. */
  predicate EasyCaseInputs(row: seq<Letter>, col: seq<Letter>, g: Letter, t: Letter, a: Letter, c: Letter) {
    EasyCaseLetters(g, t, a, c) &&
    |row| == 9 && row[0] == g && row[1] == g && row[2] == t && row[3] == t && row[4] == g && row[5] == a && row[6] == c && row[7] == t && row[8] == a &&
    |col| == 8 && col[0] == t && col[1] == g && col[2] == t && col[3] == t && col[4] == a && col[5] == c && col[6] == g && col[7] == g
  }

  /** Columns 1 to 4 of row 1 of the reference matrix of that test. */
  lemma SwEasyCaseRow1Left(row: seq<Letter>, col: seq<Letter>, g: Letter, t: Letter, a: Letter, c: Letter)
    requires EasyCaseInputs(row, col, g, t, a, c)
    ensures SwScore(row, col, EasyCaseConfig, 1, 1) == 0 && SwScore(row, col, EasyCaseConfig, 1, 2) == 3 && SwScore(row, col, EasyCaseConfig, 1, 3) == 1 && SwScore(row, col, EasyCaseConfig, 1, 4) == 0
  {
    assert SwScore(row, col, EasyCaseConfig, 1, 1) == 0;
    assert SwScore(row, col, EasyCaseConfig, 1, 2) == 3;
    assert SwScore(row, col, EasyCaseConfig, 1, 3) == 1;
    assert SwScore(row, col, EasyCaseConfig, 1, 4) == 0;
  }

  /** Columns 5 to 8 of row 1 of the reference matrix of that test. */
  lemma SwEasyCaseRow1Right(row: seq<Letter>, col: seq<Letter>, g: Letter, t: Letter, a: Letter, c: Letter)
    requires EasyCaseInputs(row, col, g, t, a, c)
    ensures SwScore(row, col, EasyCaseConfig, 1, 5) == 0 && SwScore(row, col, EasyCaseConfig, 1, 6) == 0 && SwScore(row, col, EasyCaseConfig, 1, 7) == 3 && SwScore(row, col, EasyCaseConfig, 1, 8) == 3
  {
    SwEasyCaseRow1Left(row, col, g, t, a, c);
    assert SwScore(row, col, EasyCaseConfig, 1, 5) == 0;
    assert SwScore(row, col, EasyCaseConfig, 1, 6) == 0;
    assert SwScore(row, col, EasyCaseConfig, 1, 7) == 3;
    assert SwScore(row, col, EasyCaseConfig, 1, 8) == 3;
  }

  /** Columns 1 to 4 of row 2 of the reference matrix of that test. */
  lemma SwEasyCaseRow2Left(row: seq<Letter>, col: seq<Letter>, g: Letter, t: Letter, a: Letter, c: Letter)
    requires EasyCaseInputs(row, col, g, t, a, c)
    ensures SwScore(row, col, EasyCaseConfig, 2, 1) == 0 && SwScore(row, col, EasyCaseConfig, 2, 2) == 3 && SwScore(row, col, EasyCaseConfig, 2, 3) == 1 && SwScore(row, col, EasyCaseConfig, 2, 4) == 0
  {
    SwEasyCaseRow1Left(row, col, g, t, a, c);
    assert SwScore(row, col, EasyCaseConfig, 2, 1) == 0;
    assert SwScore(row, col, EasyCaseConfig, 2, 2) == 3;
    assert SwScore(row, col, EasyCaseConfig, 2, 3) == 1;
    assert SwScore(row, col, EasyCaseConfig, 2, 4) == 0;
  }

  /** Columns 5 to 8 of row 2 of the reference matrix of that test. */
  lemma SwEasyCaseRow2Right(row: seq<Letter>, col: seq<Letter>, g: Letter, t: Letter, a: Letter, c: Letter)
    requires EasyCaseInputs(row, col, g, t, a, c)
    ensures SwScore(row, col, EasyCaseConfig, 2, 5) == 0 && SwScore(row, col, EasyCaseConfig, 2, 6) == 0 && SwScore(row, col, EasyCaseConfig, 2, 7) == 3 && SwScore(row, col, EasyCaseConfig, 2, 8) == 6
  {
    SwEasyCaseRow2Left(row, col, g, t, a, c);
    SwEasyCaseRow1Left(row, col, g, t, a, c);
    SwEasyCaseRow1Right(row, col, g, t, a, c);
    assert SwScore(row, col, EasyCaseConfig, 2, 5) == 0;
    assert SwScore(row, col, EasyCaseConfig, 2, 6) == 0;
    assert SwScore(row, col, EasyCaseConfig, 2, 7) == 3;
    assert SwScore(row, col, EasyCaseConfig, 2, 8) == 6;
  }

  /** Columns 1 to 4 of row 3 of the reference matrix of that test. */
  lemma SwEasyCaseRow3Left(row: seq<Letter>, col: seq<Letter>, g: Letter, t: Letter, a: Letter, c: Letter)
    requires EasyCaseInputs(row, col, g, t, a, c)
    ensures SwScore(row, col, EasyCaseConfig, 3, 1) == 3 && SwScore(row, col, EasyCaseConfig, 3, 2) == 1 && SwScore(row, col, EasyCaseConfig, 3, 3) == 6 && SwScore(row, col, EasyCaseConfig, 3, 4) == 4
  {
    SwEasyCaseRow2Left(row, col, g, t, a, c);
    assert SwScore(row, col, EasyCaseConfig, 3, 1) == 3;
    assert SwScore(row, col, EasyCaseConfig, 3, 2) == 1;
    assert SwScore(row, col, EasyCaseConfig, 3, 3) == 6;
    assert SwScore(row, col, EasyCaseConfig, 3, 4) == 4;
  }

  /** Columns 5 to 8 of row 3 of the reference matrix of that test. */
  lemma SwEasyCaseRow3Right(row: seq<Letter>, col: seq<Letter>, g: Letter, t: Letter, a: Letter, c: Letter)
    requires EasyCaseInputs(row, col, g, t, a, c)
    ensures SwScore(row, col, EasyCaseConfig, 3, 5) == 2 && SwScore(row, col, EasyCaseConfig, 3, 6) == 0 && SwScore(row, col, EasyCaseConfig, 3, 7) == 1 && SwScore(row, col, EasyCaseConfig, 3, 8) == 4
  {
    SwEasyCaseRow3Left(row, col, g, t, a, c);
    SwEasyCaseRow2Left(row, col, g, t, a, c);
    SwEasyCaseRow2Right(row, col, g, t, a, c);
    assert SwScore(row, col, EasyCaseConfig, 3, 5) == 2;
    assert SwScore(row, col, EasyCaseConfig, 3, 6) == 0;
    assert SwScore(row, col, EasyCaseConfig, 3, 7) == 1;
    assert SwScore(row, col, EasyCaseConfig, 3, 8) == 4;
  }

  /** Columns 1 to 4 of row 4 of the reference matrix of that test. */
  lemma SwEasyCaseRow4Left(row: seq<Letter>, col: seq<Letter>, g: Letter, t: Letter, a: Letter, c: Letter)
    requires EasyCaseInputs(row, col, g, t, a, c)
    ensures SwScore(row, col, EasyCaseConfig, 4, 1) == 3 && SwScore(row, col, EasyCaseConfig, 4, 2) == 1 && SwScore(row, col, EasyCaseConfig, 4, 3) == 4 && SwScore(row, col, EasyCaseConfig, 4, 4) == 9
  {
    SwEasyCaseRow3Left(row, col, g, t, a, c);
    assert SwScore(row, col, EasyCaseConfig, 4, 1) == 3;
    assert SwScore(row, col, EasyCaseConfig, 4, 2) == 1;
    assert SwScore(row, col, EasyCaseConfig, 4, 3) == 4;
    assert SwScore(row, col, EasyCaseConfig, 4, 4) == 9;
  }

  /** Columns 5 to 8 of row 4 of the reference matrix of that test. */
  lemma SwEasyCaseRow4Right(row: seq<Letter>, col: seq<Letter>, g: Letter, t: Letter, a: Letter, c: Letter)
    requires EasyCaseInputs(row, col, g, t, a, c)
    ensures SwScore(row, col, EasyCaseConfig, 4, 5) == 7 && SwScore(row, col, EasyCaseConfig, 4, 6) == 5 && SwScore(row, col, EasyCaseConfig, 4, 7) == 3 && SwScore(row, col, EasyCaseConfig, 4, 8) == 2
  {
    SwEasyCaseRow4Left(row, col, g, t, a, c);
    SwEasyCaseRow3Left(row, col, g, t, a, c);
    SwEasyCaseRow3Right(row, col, g, t, a, c);
    assert SwScore(row, col, EasyCaseConfig, 4, 5) == 7;
    assert SwScore(row, col, EasyCaseConfig, 4, 6) == 5;
    assert SwScore(row, col, EasyCaseConfig, 4, 7) == 3;
    assert SwScore(row, col, EasyCaseConfig, 4, 8) == 2;
  }

  /** Columns 1 to 4 of row 5 of the reference matrix of that test. */
  lemma SwEasyCaseRow5Left(row: seq<Letter>, col: seq<Letter>, g: Letter, t: Letter, a: Letter, c: Letter)
    requires EasyCaseInputs(row, col, g, t, a, c)
    ensures SwScore(row, col, EasyCaseConfig, 5, 1) == 1 && SwScore(row, col, EasyCaseConfig, 5, 2) == 6 && SwScore(row, col, EasyCaseConfig, 5, 3) == 4 && SwScore(row, col, EasyCaseConfig, 5, 4) == 7
  {
    SwEasyCaseRow4Left(row, col, g, t, a, c);
    assert SwScore(row, col, EasyCaseConfig, 5, 1) == 1;
    assert SwScore(row, col, EasyCaseConfig, 5, 2) == 6;
    assert SwScore(row, col, EasyCaseConfig, 5, 3) == 4;
    assert SwScore(row, col, EasyCaseConfig, 5, 4) == 7;
  }

  /** Columns 5 to 8 of row 5 of the reference matrix of that test. */
  lemma SwEasyCaseRow5Right(row: seq<Letter>, col: seq<Letter>, g: Letter, t: Letter, a: Letter, c: Letter)
    requires EasyCaseInputs(row, col, g, t, a, c)
    ensures SwScore(row, col, EasyCaseConfig, 5, 5) == 6 && SwScore(row, col, EasyCaseConfig, 5, 6) == 4 && SwScore(row, col, EasyCaseConfig, 5, 7) == 8 && SwScore(row, col, EasyCaseConfig, 5, 8) == 6
  {
    SwEasyCaseRow5Left(row, col, g, t, a, c);
    SwEasyCaseRow4Left(row, col, g, t, a, c);
    SwEasyCaseRow4Right(row, col, g, t, a, c);
    assert SwScore(row, col, EasyCaseConfig, 5, 5) == 6;
    assert SwScore(row, col, EasyCaseConfig, 5, 6) == 4;
    assert SwScore(row, col, EasyCaseConfig, 5, 7) == 8;
    assert SwScore(row, col, EasyCaseConfig, 5, 8) == 6;
  }

  /** Columns 1 to 4 of row 6 of the reference matrix of that test. */
  lemma SwEasyCaseRow6Left(row: seq<Letter>, col: seq<Letter>, g: Letter, t: Letter, a: Letter, c: Letter)
    requires EasyCaseInputs(row, col, g, t, a, c)
    ensures SwScore(row, col, EasyCaseConfig, 6, 1) == 0 && SwScore(row, col, EasyCaseConfig, 6, 2) == 4 && SwScore(row, col, EasyCaseConfig, 6, 3) == 3 && SwScore(row, col, EasyCaseConfig, 6, 4) == 5
  {
    SwEasyCaseRow5Left(row, col, g, t, a, c);
    assert SwScore(row, col, EasyCaseConfig, 6, 1) == 0;
    assert SwScore(row, col, EasyCaseConfig, 6, 2) == 4;
    assert SwScore(row, col, EasyCaseConfig, 6, 3) == 3;
    assert SwScore(row, col, EasyCaseConfig, 6, 4) == 5;
  }

  /** Columns 5 to 8 of row 6 of the reference matrix of that test. */
  lemma SwEasyCaseRow6Right(row: seq<Letter>, col: seq<Letter>, g: Letter, t: Letter, a: Letter, c: Letter)
    requires EasyCaseInputs(row, col, g, t, a, c)
    ensures SwScore(row, col, EasyCaseConfig, 6, 5) == 10 && SwScore(row, col, EasyCaseConfig, 6, 6) == 8 && SwScore(row, col, EasyCaseConfig, 6, 7) == 6 && SwScore(row, col, EasyCaseConfig, 6, 8) == 5
  {
    SwEasyCaseRow6Left(row, col, g, t, a, c);
    SwEasyCaseRow5Left(row, col, g, t, a, c);
    SwEasyCaseRow5Right(row, col, g, t, a, c);
    assert SwScore(row, col, EasyCaseConfig, 6, 5) == 10;
    assert SwScore(row, col, EasyCaseConfig, 6, 6) == 8;
    assert SwScore(row, col, EasyCaseConfig, 6, 7) == 6;
    assert SwScore(row, col, EasyCaseConfig, 6, 8) == 5;
  }

  /** Columns 1 to 4 of row 7 of the reference matrix of that test. */
  lemma SwEasyCaseRow7Left(row: seq<Letter>, col: seq<Letter>, g: Letter, t: Letter, a: Letter, c: Letter)
    requires EasyCaseInputs(row, col, g, t, a, c)
    ensures SwScore(row, col, EasyCaseConfig, 7, 1) == 0 && SwScore(row, col, EasyCaseConfig, 7, 2) == 2 && SwScore(row, col, EasyCaseConfig, 7, 3) == 1 && SwScore(row, col, EasyCaseConfig, 7, 4) == 3
  {
    SwEasyCaseRow6Left(row, col, g, t, a, c);
    assert SwScore(row, col, EasyCaseConfig, 7, 1) == 0;
    assert SwScore(row, col, EasyCaseConfig, 7, 2) == 2;
    assert SwScore(row, col, EasyCaseConfig, 7, 3) == 1;
    assert SwScore(row, col, EasyCaseConfig, 7, 4) == 3;
  }

  /** Columns 5 to 8 of row 7 of the reference matrix of that test. */
  lemma SwEasyCaseRow7Right(row: seq<Letter>, col: seq<Letter>, g: Letter, t: Letter, a: Letter, c: Letter)
    requires EasyCaseInputs(row, col, g, t, a, c)
    ensures SwScore(row, col, EasyCaseConfig, 7, 5) == 8 && SwScore(row, col, EasyCaseConfig, 7, 6) == 13 && SwScore(row, col, EasyCaseConfig, 7, 7) == 11 && SwScore(row, col, EasyCaseConfig, 7, 8) == 9
  {
    SwEasyCaseRow7Left(row, col, g, t, a, c);
    SwEasyCaseRow6Left(row, col, g, t, a, c);
    SwEasyCaseRow6Right(row, col, g, t, a, c);
    assert SwScore(row, col, EasyCaseConfig, 7, 5) == 8;
    assert SwScore(row, col, EasyCaseConfig, 7, 6) == 13;
    assert SwScore(row, col, EasyCaseConfig, 7, 7) == 11;
    assert SwScore(row, col, EasyCaseConfig, 7, 8) == 9;
  }

  /** Columns 1 to 4 of row 8 of the reference matrix of that test. */
  lemma SwEasyCaseRow8Left(row: seq<Letter>, col: seq<Letter>, g: Letter, t: Letter, a: Letter, c: Letter)
    requires EasyCaseInputs(row, col, g, t, a, c)
    ensures SwScore(row, col, EasyCaseConfig, 8, 1) == 3 && SwScore(row, col, EasyCaseConfig, 8, 2) == 1 && SwScore(row, col, EasyCaseConfig, 8, 3) == 5 && SwScore(row, col, EasyCaseConfig, 8, 4) == 4
  {
    SwEasyCaseRow7Left(row, col, g, t, a, c);
    assert SwScore(row, col, EasyCaseConfig, 8, 1) == 3;
    assert SwScore(row, col, EasyCaseConfig, 8, 2) == 1;
    assert SwScore(row, col, EasyCaseConfig, 8, 3) == 5;
    assert SwScore(row, col, EasyCaseConfig, 8, 4) == 4;
  }

  /** Columns 5 to 8 of row 8 of the reference matrix of that test. */
  lemma SwEasyCaseRow8Right(row: seq<Letter>, col: seq<Letter>, g: Letter, t: Letter, a: Letter, c: Letter)
    requires EasyCaseInputs(row, col, g, t, a, c)
    ensures SwScore(row, col, EasyCaseConfig, 8, 5) == 6 && SwScore(row, col, EasyCaseConfig, 8, 6) == 11 && SwScore(row, col, EasyCaseConfig, 8, 7) == 10 && SwScore(row, col, EasyCaseConfig, 8, 8) == 8
  {
    SwEasyCaseRow8Left(row, col, g, t, a, c);
    SwEasyCaseRow7Left(row, col, g, t, a, c);
    SwEasyCaseRow7Right(row, col, g, t, a, c);
    assert SwScore(row, col, EasyCaseConfig, 8, 5) == 6;
    assert SwScore(row, col, EasyCaseConfig, 8, 6) == 11;
    assert SwScore(row, col, EasyCaseConfig, 8, 7) == 10;
    assert SwScore(row, col, EasyCaseConfig, 8, 8) == 8;
  }

  /** Columns 1 to 4 of row 9 of the reference matrix of that test. */
  lemma SwEasyCaseRow9Left(row: seq<Letter>, col: seq<Letter>, g: Letter, t: Letter, a: Letter, c: Letter)
    requires EasyCaseInputs(row, col, g, t, a, c)
    ensures SwScore(row, col, EasyCaseConfig, 9, 1) == 1 && SwScore(row, col, EasyCaseConfig, 9, 2) == 0 && SwScore(row, col, EasyCaseConfig, 9, 3) == 3 && SwScore(row, col, EasyCaseConfig, 9, 4) == 2
  {
    SwEasyCaseRow8Left(row, col, g, t, a, c);
    assert SwScore(row, col, EasyCaseConfig, 9, 1) == 1;
    assert SwScore(row, col, EasyCaseConfig, 9, 2) == 0;
    assert SwScore(row, col, EasyCaseConfig, 9, 3) == 3;
    assert SwScore(row, col, EasyCaseConfig, 9, 4) == 2;
  }

  /** Columns 5 to 8 of row 9 of the reference matrix of that test. */
  lemma SwEasyCaseRow9Right(row: seq<Letter>, col: seq<Letter>, g: Letter, t: Letter, a: Letter, c: Letter)
    requires EasyCaseInputs(row, col, g, t, a, c)
    ensures SwScore(row, col, EasyCaseConfig, 9, 5) == 7 && SwScore(row, col, EasyCaseConfig, 9, 6) == 9 && SwScore(row, col, EasyCaseConfig, 9, 7) == 8 && SwScore(row, col, EasyCaseConfig, 9, 8) == 7
  {
    SwEasyCaseRow9Left(row, col, g, t, a, c);
    SwEasyCaseRow8Left(row, col, g, t, a, c);
    SwEasyCaseRow8Right(row, col, g, t, a, c);
    assert SwScore(row, col, EasyCaseConfig, 9, 5) == 7;
    assert SwScore(row, col, EasyCaseConfig, 9, 6) == 9;
    assert SwScore(row, col, EasyCaseConfig, 9, 7) == 8;
    assert SwScore(row, col, EasyCaseConfig, 9, 8) == 7;
  }

  /** The matrix the code fills for that test. */
  const EasyCaseMatrix: seq<seq<int>> := [
    [0, 0, 0, 0, 0, 0, 0, 0, 0],
    [0, 0, 3, 1, 0, 0, 0, 3, 3],
    [0, 0, 3, 1, 0, 0, 0, 3, 6],
    [0, 3, 1, 6, 4, 2, 0, 1, 4],
    [0, 3, 1, 4, 9, 7, 5, 3, 2],
    [0, 1, 6, 4, 7, 6, 4, 8, 6],
    [0, 0, 4, 3, 5, 10, 8, 6, 5],
    [0, 0, 2, 1, 3, 8, 13, 11, 9],
    [0, 3, 1, 5, 4, 6, 11, 10, 8],
    [0, 1, 0, 3, 2, 7, 9, 8, 7]]

  /** Row 1 of the matrix the code fills for that test. */
  lemma SwEasyCaseMatrixRow1(row: seq<Letter>, col: seq<Letter>, g: Letter, t: Letter, a: Letter, c: Letter)
    requires EasyCaseInputs(row, col, g, t, a, c)
    ensures SwGrid(row, col, EasyCaseConfig)[1] == EasyCaseMatrix[1]
  {
    SwEasyCaseRow1Left(row, col, g, t, a, c);
    SwEasyCaseRow1Right(row, col, g, t, a, c);
  }

  /** Row 2 of the matrix the code fills for that test. */
  lemma SwEasyCaseMatrixRow2(row: seq<Letter>, col: seq<Letter>, g: Letter, t: Letter, a: Letter, c: Letter)
    requires EasyCaseInputs(row, col, g, t, a, c)
    ensures SwGrid(row, col, EasyCaseConfig)[2] == EasyCaseMatrix[2]
  {
    SwEasyCaseRow2Left(row, col, g, t, a, c);
    SwEasyCaseRow2Right(row, col, g, t, a, c);
    SwEasyCaseRow1Left(row, col, g, t, a, c);
    SwEasyCaseRow1Right(row, col, g, t, a, c);
  }

  /** Row 3 of the matrix the code fills for that test. */
  lemma SwEasyCaseMatrixRow3(row: seq<Letter>, col: seq<Letter>, g: Letter, t: Letter, a: Letter, c: Letter)
    requires EasyCaseInputs(row, col, g, t, a, c)
    ensures SwGrid(row, col, EasyCaseConfig)[3] == EasyCaseMatrix[3]
  {
    SwEasyCaseRow3Left(row, col, g, t, a, c);
    SwEasyCaseRow3Right(row, col, g, t, a, c);
    SwEasyCaseRow2Left(row, col, g, t, a, c);
    SwEasyCaseRow2Right(row, col, g, t, a, c);
    SwEasyCaseRow1Left(row, col, g, t, a, c);
    SwEasyCaseRow1Right(row, col, g, t, a, c);
  }

  /** Row 4 of the matrix the code fills for that test. */
  lemma SwEasyCaseMatrixRow4(row: seq<Letter>, col: seq<Letter>, g: Letter, t: Letter, a: Letter, c: Letter)
    requires EasyCaseInputs(row, col, g, t, a, c)
    ensures SwGrid(row, col, EasyCaseConfig)[4] == EasyCaseMatrix[4]
  {
    SwEasyCaseRow4Left(row, col, g, t, a, c);
    SwEasyCaseRow4Right(row, col, g, t, a, c);
    SwEasyCaseRow3Left(row, col, g, t, a, c);
    SwEasyCaseRow3Right(row, col, g, t, a, c);
    SwEasyCaseRow2Left(row, col, g, t, a, c);
    SwEasyCaseRow2Right(row, col, g, t, a, c);
    SwEasyCaseRow1Left(row, col, g, t, a, c);
    SwEasyCaseRow1Right(row, col, g, t, a, c);
  }

  /** Row 5 of the matrix the code fills for that test. */
  lemma SwEasyCaseMatrixRow5(row: seq<Letter>, col: seq<Letter>, g: Letter, t: Letter, a: Letter, c: Letter)
    requires EasyCaseInputs(row, col, g, t, a, c)
    ensures SwGrid(row, col, EasyCaseConfig)[5] == EasyCaseMatrix[5]
  {
    SwEasyCaseRow5Left(row, col, g, t, a, c);
    SwEasyCaseRow5Right(row, col, g, t, a, c);
    SwEasyCaseRow4Left(row, col, g, t, a, c);
    SwEasyCaseRow4Right(row, col, g, t, a, c);
    SwEasyCaseRow3Left(row, col, g, t, a, c);
    SwEasyCaseRow3Right(row, col, g, t, a, c);
    SwEasyCaseRow2Left(row, col, g, t, a, c);
    SwEasyCaseRow2Right(row, col, g, t, a, c);
    SwEasyCaseRow1Left(row, col, g, t, a, c);
    SwEasyCaseRow1Right(row, col, g, t, a, c);
  }

  /** Row 6 of the matrix the code fills for that test. */
  lemma SwEasyCaseMatrixRow6(row: seq<Letter>, col: seq<Letter>, g: Letter, t: Letter, a: Letter, c: Letter)
    requires EasyCaseInputs(row, col, g, t, a, c)
    ensures SwGrid(row, col, EasyCaseConfig)[6] == EasyCaseMatrix[6]
  {
    SwEasyCaseRow6Left(row, col, g, t, a, c);
    SwEasyCaseRow6Right(row, col, g, t, a, c);
    SwEasyCaseRow5Left(row, col, g, t, a, c);
    SwEasyCaseRow5Right(row, col, g, t, a, c);
    SwEasyCaseRow4Left(row, col, g, t, a, c);
    SwEasyCaseRow4Right(row, col, g, t, a, c);
    SwEasyCaseRow3Left(row, col, g, t, a, c);
    SwEasyCaseRow3Right(row, col, g, t, a, c);
    SwEasyCaseRow2Left(row, col, g, t, a, c);
    SwEasyCaseRow2Right(row, col, g, t, a, c);
    SwEasyCaseRow1Left(row, col, g, t, a, c);
    SwEasyCaseRow1Right(row, col, g, t, a, c);
  }

  /** Row 7 of the matrix the code fills for that test. */
  lemma SwEasyCaseMatrixRow7(row: seq<Letter>, col: seq<Letter>, g: Letter, t: Letter, a: Letter, c: Letter)
    requires EasyCaseInputs(row, col, g, t, a, c)
    ensures SwGrid(row, col, EasyCaseConfig)[7] == EasyCaseMatrix[7]
  {
    SwEasyCaseRow7Left(row, col, g, t, a, c);
    SwEasyCaseRow7Right(row, col, g, t, a, c);
    SwEasyCaseRow6Left(row, col, g, t, a, c);
    SwEasyCaseRow6Right(row, col, g, t, a, c);
    SwEasyCaseRow5Left(row, col, g, t, a, c);
    SwEasyCaseRow5Right(row, col, g, t, a, c);
    SwEasyCaseRow4Left(row, col, g, t, a, c);
    SwEasyCaseRow4Right(row, col, g, t, a, c);
    SwEasyCaseRow3Left(row, col, g, t, a, c);
    SwEasyCaseRow3Right(row, col, g, t, a, c);
    SwEasyCaseRow2Left(row, col, g, t, a, c);
    SwEasyCaseRow2Right(row, col, g, t, a, c);
    SwEasyCaseRow1Left(row, col, g, t, a, c);
    SwEasyCaseRow1Right(row, col, g, t, a, c);
  }

  /** Row 8 of the matrix the code fills for that test. */
  lemma SwEasyCaseMatrixRow8(row: seq<Letter>, col: seq<Letter>, g: Letter, t: Letter, a: Letter, c: Letter)
    requires EasyCaseInputs(row, col, g, t, a, c)
    ensures SwGrid(row, col, EasyCaseConfig)[8] == EasyCaseMatrix[8]
  {
    SwEasyCaseRow8Left(row, col, g, t, a, c);
    SwEasyCaseRow8Right(row, col, g, t, a, c);
    SwEasyCaseRow7Left(row, col, g, t, a, c);
    SwEasyCaseRow7Right(row, col, g, t, a, c);
    SwEasyCaseRow6Left(row, col, g, t, a, c);
    SwEasyCaseRow6Right(row, col, g, t, a, c);
    SwEasyCaseRow5Left(row, col, g, t, a, c);
    SwEasyCaseRow5Right(row, col, g, t, a, c);
    SwEasyCaseRow4Left(row, col, g, t, a, c);
    SwEasyCaseRow4Right(row, col, g, t, a, c);
    SwEasyCaseRow3Left(row, col, g, t, a, c);
    SwEasyCaseRow3Right(row, col, g, t, a, c);
    SwEasyCaseRow2Left(row, col, g, t, a, c);
    SwEasyCaseRow2Right(row, col, g, t, a, c);
    SwEasyCaseRow1Left(row, col, g, t, a, c);
    SwEasyCaseRow1Right(row, col, g, t, a, c);
  }

  /** Row 9 of the matrix the code fills for that test. */
  lemma SwEasyCaseMatrixRow9(row: seq<Letter>, col: seq<Letter>, g: Letter, t: Letter, a: Letter, c: Letter)
    requires EasyCaseInputs(row, col, g, t, a, c)
    ensures SwGrid(row, col, EasyCaseConfig)[9] == EasyCaseMatrix[9]
  {
    SwEasyCaseRow9Left(row, col, g, t, a, c);
    SwEasyCaseRow9Right(row, col, g, t, a, c);
    SwEasyCaseRow8Left(row, col, g, t, a, c);
    SwEasyCaseRow8Right(row, col, g, t, a, c);
    SwEasyCaseRow7Left(row, col, g, t, a, c);
    SwEasyCaseRow7Right(row, col, g, t, a, c);
    SwEasyCaseRow6Left(row, col, g, t, a, c);
    SwEasyCaseRow6Right(row, col, g, t, a, c);
    SwEasyCaseRow5Left(row, col, g, t, a, c);
    SwEasyCaseRow5Right(row, col, g, t, a, c);
    SwEasyCaseRow4Left(row, col, g, t, a, c);
    SwEasyCaseRow4Right(row, col, g, t, a, c);
    SwEasyCaseRow3Left(row, col, g, t, a, c);
    SwEasyCaseRow3Right(row, col, g, t, a, c);
    SwEasyCaseRow2Left(row, col, g, t, a, c);
    SwEasyCaseRow2Right(row, col, g, t, a, c);
    SwEasyCaseRow1Left(row, col, g, t, a, c);
    SwEasyCaseRow1Right(row, col, g, t, a, c);
  }

  /** The code fills exactly `EasyCaseMatrix` for that test. */
  lemma SwEasyCaseMatrix(row: seq<Letter>, col: seq<Letter>, g: Letter, t: Letter, a: Letter, c: Letter)
    requires EasyCaseInputs(row, col, g, t, a, c)
    ensures SwGrid(row, col, EasyCaseConfig) == EasyCaseMatrix
  {
    var grid := SwGrid(row, col, EasyCaseConfig);
    SwEasyCaseMatrixRow1(row, col, g, t, a, c);
    SwEasyCaseMatrixRow2(row, col, g, t, a, c);
    SwEasyCaseMatrixRow3(row, col, g, t, a, c);
    SwEasyCaseMatrixRow4(row, col, g, t, a, c);
    SwEasyCaseMatrixRow5(row, col, g, t, a, c);
    SwEasyCaseMatrixRow6(row, col, g, t, a, c);
    SwEasyCaseMatrixRow7(row, col, g, t, a, c);
    SwEasyCaseMatrixRow8(row, col, g, t, a, c);
    SwEasyCaseMatrixRow9(row, col, g, t, a, c);
    assert grid[0] == EasyCaseMatrix[0];
  }

  /** That matrix has zero borders, and its last maximal cell, holding 13, is (7, 6): no other cell holds 13. */
  lemma EasyCaseMatrixLastMax()
    ensures Rect(EasyCaseMatrix, 9) && HasZeroBorders(EasyCaseMatrix, 9)
    ensures IsLastMax(EasyCaseMatrix, 9, 7, 6) && EasyCaseMatrix[7][6] == 13
    ensures forall i, j :: 0 <= i < 10 && 0 <= j < 9 && (i, j) != (7, 6) ==> EasyCaseMatrix[i][j] < 13
  {
  }

  /** One step of the code's traceback with its move known: from (i, j) it steps back to (pi, pj) and pushes x over y. */
  lemma SwTracebackPush(grid: seq<seq<int>>, w: nat, row: seq<Letter>, col: seq<Letter>, i: nat, j: nat, m: Move, pi: nat, pj: nat, x: Letter, y: Letter)
    requires Rect(grid, w) && 0 < i < |grid| && 0 < j < w && HasZeroBorders(grid, w) && grid[i][j] != 0
    requires SwMoveAt(grid, w, i, j) == m && StepBack(m, i, j) == (pi, pj)
    requires RowLetter(m, row, i) == x && ColumnLetter(m, col, j) == y
    ensures var before := SwTraceback(grid, w, row, col, pi, pj);
      SwTraceback(grid, w, row, col, i, j) == SwTrace(before.rowData + [x], before.columnData + [y], before.stopI, before.stopJ)
  {
  }

  /** The same for the corrected traceback over the reference matrix. */
  lemma SwOptimalTracebackPush(row: seq<Letter>, col: seq<Letter>, cfg: LocalAlignmentConfig, i: nat, j: nat, m: Move, pi: nat, pj: nat, x: Letter, y: Letter)
    requires 0 < i <= |row| && 0 < j <= |col| && SwScore(row, col, cfg, i, j) != 0
    requires SwOptimalMove(row, col, cfg, i, j) == m && StepBack(m, i, j) == (pi, pj)
    requires RowLetter(m, row, i) == x && ColumnLetter(m, col, j) == y
    ensures var before := SwOptimalTraceback(row, col, cfg, pi, pj);
      SwOptimalTraceback(row, col, cfg, i, j) == SwTrace(before.rowData + [x], before.columnData + [y], before.stopI, before.stopJ)
  {
  }

  /** The code's traceback over `EasyCaseMatrix` from its cell (4, 4): three diagonal moves. */
  lemma SwTracebackEasyCaseMatrixHead(row: seq<Letter>, col: seq<Letter>, g: Letter, t: Letter, a: Letter, c: Letter)
    requires EasyCaseInputs(row, col, g, t, a, c)
    ensures SwTraceback(EasyCaseMatrix, 9, row, col, 4, 4) == SwTrace([g, t, t], [g, t, t], 1, 1)
  {
    var m := EasyCaseMatrix;
    EasyCaseMatrixLastMax();
    SwTracebackAtZero(m, 9, row, col, 1, 1);
    SwTracebackPush(m, 9, row, col, 2, 2, Diagonal, 1, 1, g, g);
    assert SwTraceback(m, 9, row, col, 2, 2) == SwTrace([g], [g], 1, 1);
    SwTracebackPush(m, 9, row, col, 3, 3, Diagonal, 2, 2, t, t);
    assert SwTraceback(m, 9, row, col, 3, 3) == SwTrace([g, t], [g, t], 1, 1);
    SwTracebackPush(m, 9, row, col, 4, 4, Diagonal, 3, 3, t, t);
  }

  /** The code's traceback over `EasyCaseMatrix` from its cell (7, 6): up from (5, 4), diagonal elsewhere. */
  lemma SwTracebackEasyCaseMatrix(row: seq<Letter>, col: seq<Letter>, g: Letter, t: Letter, a: Letter, c: Letter)
    requires EasyCaseInputs(row, col, g, t, a, c)
    ensures SwAlignmentFrom(EasyCaseMatrix, 9, row, col, 7, 6) ==
      LocalAlignmentResult(LocallyAlignedSeq(1, 7, [g, t, t, g, a, c]), LocallyAlignedSeq(1, 6, [g, t, t, Gap, a, c]), 13)
  {
    var m := EasyCaseMatrix;
    EasyCaseMatrixLastMax();
    SwTracebackEasyCaseMatrixHead(row, col, g, t, a, c);
    SwTracebackPush(m, 9, row, col, 5, 4, Up, 4, 4, g, Gap);
    assert SwTraceback(m, 9, row, col, 5, 4) == SwTrace([g, t, t, g], [g, t, t, Gap], 1, 1);
    SwTracebackPush(m, 9, row, col, 6, 5, Diagonal, 5, 4, a, a);
    assert SwTraceback(m, 9, row, col, 6, 5) == SwTrace([g, t, t, g, a], [g, t, t, Gap, a], 1, 1);
    SwTracebackPush(m, 9, row, col, 7, 6, Diagonal, 6, 5, c, c);
    assert SwTraceback(m, 9, row, col, 7, 6) == SwTrace([g, t, t, g, a, c], [g, t, t, Gap, a, c], 1, 1);
  }

  /**
   * On that test the code's traceback from (7, 6) returns the alignment the
   * test expects: rows 1 to 7 "GTTGAC" over columns 1 to 6 "GTT-AC", score 13.
   */
  lemma SwTracebackEasyCaseAsWritten(row: seq<Letter>, col: seq<Letter>, g: Letter, t: Letter, a: Letter, c: Letter)
    requires EasyCaseInputs(row, col, g, t, a, c)
    ensures SwAlignmentFrom(SwGrid(row, col, EasyCaseConfig), 9, row, col, 7, 6) ==
      LocalAlignmentResult(LocallyAlignedSeq(1, 7, [g, t, t, g, a, c]), LocallyAlignedSeq(1, 6, [g, t, t, Gap, a, c]), 13)
  {
    SwEasyCaseMatrix(row, col, g, t, a, c);
    SwTracebackEasyCaseMatrix(row, col, g, t, a, c);
  }

  /** At cell (2, 2) of that test's matrix the corrected traceback moves diagonally, as the code does. */
  lemma SwOptimalTracebackEasyCaseAt22(row: seq<Letter>, col: seq<Letter>, g: Letter, t: Letter, a: Letter, c: Letter)
    requires EasyCaseInputs(row, col, g, t, a, c)
    ensures var before := SwOptimalTraceback(row, col, EasyCaseConfig, 1, 1);
      SwOptimalTraceback(row, col, EasyCaseConfig, 2, 2) == SwTrace(before.rowData + [g], before.columnData + [g], before.stopI, before.stopJ)
  {
    SwEasyCaseRow2Left(row, col, g, t, a, c);
    SwEasyCaseRow2Right(row, col, g, t, a, c);
    SwEasyCaseRow1Left(row, col, g, t, a, c);
    SwEasyCaseRow1Right(row, col, g, t, a, c);
    assert SwOptimalMove(row, col, EasyCaseConfig, 2, 2) == Diagonal;
    SwOptimalTracebackPush(row, col, EasyCaseConfig, 2, 2, Diagonal, 1, 1, g, g);
  }

  /** At cell (3, 3) of that test's matrix the corrected traceback moves diagonally, as the code does. */
  lemma SwOptimalTracebackEasyCaseAt33(row: seq<Letter>, col: seq<Letter>, g: Letter, t: Letter, a: Letter, c: Letter)
    requires EasyCaseInputs(row, col, g, t, a, c)
    ensures var before := SwOptimalTraceback(row, col, EasyCaseConfig, 2, 2);
      SwOptimalTraceback(row, col, EasyCaseConfig, 3, 3) == SwTrace(before.rowData + [t], before.columnData + [t], before.stopI, before.stopJ)
  {
    SwEasyCaseRow3Left(row, col, g, t, a, c);
    SwEasyCaseRow3Right(row, col, g, t, a, c);
    SwEasyCaseRow2Left(row, col, g, t, a, c);
    SwEasyCaseRow2Right(row, col, g, t, a, c);
    SwEasyCaseRow1Left(row, col, g, t, a, c);
    SwEasyCaseRow1Right(row, col, g, t, a, c);
    assert SwOptimalMove(row, col, EasyCaseConfig, 3, 3) == Diagonal;
    SwOptimalTracebackPush(row, col, EasyCaseConfig, 3, 3, Diagonal, 2, 2, t, t);
  }

  /** At cell (4, 4) of that test's matrix the corrected traceback moves diagonally, as the code does. */
  lemma SwOptimalTracebackEasyCaseAt44(row: seq<Letter>, col: seq<Letter>, g: Letter, t: Letter, a: Letter, c: Letter)
    requires EasyCaseInputs(row, col, g, t, a, c)
    ensures var before := SwOptimalTraceback(row, col, EasyCaseConfig, 3, 3);
      SwOptimalTraceback(row, col, EasyCaseConfig, 4, 4) == SwTrace(before.rowData + [t], before.columnData + [t], before.stopI, before.stopJ)
  {
    SwEasyCaseRow4Left(row, col, g, t, a, c);
    SwEasyCaseRow4Right(row, col, g, t, a, c);
    SwEasyCaseRow3Left(row, col, g, t, a, c);
    SwEasyCaseRow3Right(row, col, g, t, a, c);
    SwEasyCaseRow2Left(row, col, g, t, a, c);
    SwEasyCaseRow2Right(row, col, g, t, a, c);
    SwEasyCaseRow1Left(row, col, g, t, a, c);
    SwEasyCaseRow1Right(row, col, g, t, a, c);
    assert SwOptimalMove(row, col, EasyCaseConfig, 4, 4) == Diagonal;
    SwOptimalTracebackPush(row, col, EasyCaseConfig, 4, 4, Diagonal, 3, 3, t, t);
  }

  /** At cell (5, 4) of that test's matrix the corrected traceback moves up, as the code does. */
  lemma SwOptimalTracebackEasyCaseAt54(row: seq<Letter>, col: seq<Letter>, g: Letter, t: Letter, a: Letter, c: Letter)
    requires EasyCaseInputs(row, col, g, t, a, c)
    ensures var before := SwOptimalTraceback(row, col, EasyCaseConfig, 4, 4);
      SwOptimalTraceback(row, col, EasyCaseConfig, 5, 4) == SwTrace(before.rowData + [g], before.columnData + [Gap], before.stopI, before.stopJ)
  {
    SwEasyCaseRow5Left(row, col, g, t, a, c);
    SwEasyCaseRow5Right(row, col, g, t, a, c);
    SwEasyCaseRow4Left(row, col, g, t, a, c);
    SwEasyCaseRow4Right(row, col, g, t, a, c);
    SwEasyCaseRow3Left(row, col, g, t, a, c);
    SwEasyCaseRow3Right(row, col, g, t, a, c);
    SwEasyCaseRow2Left(row, col, g, t, a, c);
    SwEasyCaseRow2Right(row, col, g, t, a, c);
    SwEasyCaseRow1Left(row, col, g, t, a, c);
    SwEasyCaseRow1Right(row, col, g, t, a, c);
    assert SwOptimalMove(row, col, EasyCaseConfig, 5, 4) == Up;
    SwOptimalTracebackPush(row, col, EasyCaseConfig, 5, 4, Up, 4, 4, g, Gap);
  }

  /** At cell (6, 5) of that test's matrix the corrected traceback moves diagonally, as the code does. */
  lemma SwOptimalTracebackEasyCaseAt65(row: seq<Letter>, col: seq<Letter>, g: Letter, t: Letter, a: Letter, c: Letter)
    requires EasyCaseInputs(row, col, g, t, a, c)
    ensures var before := SwOptimalTraceback(row, col, EasyCaseConfig, 5, 4);
      SwOptimalTraceback(row, col, EasyCaseConfig, 6, 5) == SwTrace(before.rowData + [a], before.columnData + [a], before.stopI, before.stopJ)
  {
    SwEasyCaseRow6Left(row, col, g, t, a, c);
    SwEasyCaseRow6Right(row, col, g, t, a, c);
    SwEasyCaseRow5Left(row, col, g, t, a, c);
    SwEasyCaseRow5Right(row, col, g, t, a, c);
    SwEasyCaseRow4Left(row, col, g, t, a, c);
    SwEasyCaseRow4Right(row, col, g, t, a, c);
    SwEasyCaseRow3Left(row, col, g, t, a, c);
    SwEasyCaseRow3Right(row, col, g, t, a, c);
    SwEasyCaseRow2Left(row, col, g, t, a, c);
    SwEasyCaseRow2Right(row, col, g, t, a, c);
    SwEasyCaseRow1Left(row, col, g, t, a, c);
    SwEasyCaseRow1Right(row, col, g, t, a, c);
    assert SwOptimalMove(row, col, EasyCaseConfig, 6, 5) == Diagonal;
    SwOptimalTracebackPush(row, col, EasyCaseConfig, 6, 5, Diagonal, 5, 4, a, a);
  }

  /** At cell (7, 6) of that test's matrix the corrected traceback moves diagonally, as the code does. */
  lemma SwOptimalTracebackEasyCaseAt76(row: seq<Letter>, col: seq<Letter>, g: Letter, t: Letter, a: Letter, c: Letter)
    requires EasyCaseInputs(row, col, g, t, a, c)
    ensures var before := SwOptimalTraceback(row, col, EasyCaseConfig, 6, 5);
      SwOptimalTraceback(row, col, EasyCaseConfig, 7, 6) == SwTrace(before.rowData + [c], before.columnData + [c], before.stopI, before.stopJ)
  {
    SwEasyCaseRow7Left(row, col, g, t, a, c);
    SwEasyCaseRow7Right(row, col, g, t, a, c);
    SwEasyCaseRow6Left(row, col, g, t, a, c);
    SwEasyCaseRow6Right(row, col, g, t, a, c);
    SwEasyCaseRow5Left(row, col, g, t, a, c);
    SwEasyCaseRow5Right(row, col, g, t, a, c);
    SwEasyCaseRow4Left(row, col, g, t, a, c);
    SwEasyCaseRow4Right(row, col, g, t, a, c);
    SwEasyCaseRow3Left(row, col, g, t, a, c);
    SwEasyCaseRow3Right(row, col, g, t, a, c);
    SwEasyCaseRow2Left(row, col, g, t, a, c);
    SwEasyCaseRow2Right(row, col, g, t, a, c);
    SwEasyCaseRow1Left(row, col, g, t, a, c);
    SwEasyCaseRow1Right(row, col, g, t, a, c);
    assert SwOptimalMove(row, col, EasyCaseConfig, 7, 6) == Diagonal;
    SwOptimalTracebackPush(row, col, EasyCaseConfig, 7, 6, Diagonal, 6, 5, c, c);
  }

  /** The corrected traceback from cell (4, 4) of that test: three diagonal moves. */
  lemma SwOptimalTracebackEasyCaseHead(row: seq<Letter>, col: seq<Letter>, g: Letter, t: Letter, a: Letter, c: Letter)
    requires EasyCaseInputs(row, col, g, t, a, c)
    ensures SwOptimalTraceback(row, col, EasyCaseConfig, 4, 4) == SwTrace([g, t, t], [g, t, t], 1, 1)
  {
    SwEasyCaseRow4Left(row, col, g, t, a, c);
    SwEasyCaseRow4Right(row, col, g, t, a, c);
    SwEasyCaseRow3Left(row, col, g, t, a, c);
    SwEasyCaseRow3Right(row, col, g, t, a, c);
    SwEasyCaseRow2Left(row, col, g, t, a, c);
    SwEasyCaseRow2Right(row, col, g, t, a, c);
    SwEasyCaseRow1Left(row, col, g, t, a, c);
    SwEasyCaseRow1Right(row, col, g, t, a, c);
    assert SwOptimalTraceback(row, col, EasyCaseConfig, 1, 1) == SwTrace([], [], 1, 1);
    SwOptimalTracebackEasyCaseAt22(row, col, g, t, a, c);
    assert SwOptimalTraceback(row, col, EasyCaseConfig, 2, 2) == SwTrace([g], [g], 1, 1);
    SwOptimalTracebackEasyCaseAt33(row, col, g, t, a, c);
    assert SwOptimalTraceback(row, col, EasyCaseConfig, 3, 3) == SwTrace([g, t], [g, t], 1, 1);
    SwOptimalTracebackEasyCaseAt44(row, col, g, t, a, c);
  }

  /** The corrected traceback from cell (5, 4) of that test: up, then three diagonal moves. */
  lemma SwOptimalTracebackEasyCaseFrom54(row: seq<Letter>, col: seq<Letter>, g: Letter, t: Letter, a: Letter, c: Letter)
    requires EasyCaseInputs(row, col, g, t, a, c)
    ensures SwOptimalTraceback(row, col, EasyCaseConfig, 5, 4) == SwTrace([g, t, t, g], [g, t, t, Gap], 1, 1)
  {
    SwEasyCaseRow5Left(row, col, g, t, a, c);
    SwEasyCaseRow5Right(row, col, g, t, a, c);
    SwEasyCaseRow4Left(row, col, g, t, a, c);
    SwEasyCaseRow4Right(row, col, g, t, a, c);
    SwEasyCaseRow3Left(row, col, g, t, a, c);
    SwEasyCaseRow3Right(row, col, g, t, a, c);
    SwEasyCaseRow2Left(row, col, g, t, a, c);
    SwEasyCaseRow2Right(row, col, g, t, a, c);
    SwEasyCaseRow1Left(row, col, g, t, a, c);
    SwEasyCaseRow1Right(row, col, g, t, a, c);
    SwOptimalTracebackEasyCaseHead(row, col, g, t, a, c);
    SwOptimalTracebackEasyCaseAt54(row, col, g, t, a, c);
  }

  /** The corrected traceback from cell (6, 5) of that test. */
  lemma SwOptimalTracebackEasyCaseFrom65(row: seq<Letter>, col: seq<Letter>, g: Letter, t: Letter, a: Letter, c: Letter)
    requires EasyCaseInputs(row, col, g, t, a, c)
    ensures SwOptimalTraceback(row, col, EasyCaseConfig, 6, 5) == SwTrace([g, t, t, g, a], [g, t, t, Gap, a], 1, 1)
  {
    SwEasyCaseRow6Left(row, col, g, t, a, c);
    SwEasyCaseRow6Right(row, col, g, t, a, c);
    SwEasyCaseRow5Left(row, col, g, t, a, c);
    SwEasyCaseRow5Right(row, col, g, t, a, c);
    SwEasyCaseRow4Left(row, col, g, t, a, c);
    SwEasyCaseRow4Right(row, col, g, t, a, c);
    SwEasyCaseRow3Left(row, col, g, t, a, c);
    SwEasyCaseRow3Right(row, col, g, t, a, c);
    SwEasyCaseRow2Left(row, col, g, t, a, c);
    SwEasyCaseRow2Right(row, col, g, t, a, c);
    SwEasyCaseRow1Left(row, col, g, t, a, c);
    SwEasyCaseRow1Right(row, col, g, t, a, c);
    SwOptimalTracebackEasyCaseFrom54(row, col, g, t, a, c);
    SwOptimalTracebackEasyCaseAt65(row, col, g, t, a, c);
  }

  /** The corrected traceback from the same cell (7, 6) returns the same alignment as the code's. */
  lemma SwOptimalTracebackEasyCase(row: seq<Letter>, col: seq<Letter>, g: Letter, t: Letter, a: Letter, c: Letter)
    requires EasyCaseInputs(row, col, g, t, a, c)
    ensures SwOptimalTraceback(row, col, EasyCaseConfig, 7, 6) == SwTrace([g, t, t, g, a, c], [g, t, t, Gap, a, c], 1, 1)
  {
    SwEasyCaseRow7Left(row, col, g, t, a, c);
    SwEasyCaseRow7Right(row, col, g, t, a, c);
    SwEasyCaseRow6Left(row, col, g, t, a, c);
    SwEasyCaseRow6Right(row, col, g, t, a, c);
    SwEasyCaseRow5Left(row, col, g, t, a, c);
    SwEasyCaseRow5Right(row, col, g, t, a, c);
    SwEasyCaseRow4Left(row, col, g, t, a, c);
    SwEasyCaseRow4Right(row, col, g, t, a, c);
    SwEasyCaseRow3Left(row, col, g, t, a, c);
    SwEasyCaseRow3Right(row, col, g, t, a, c);
    SwEasyCaseRow2Left(row, col, g, t, a, c);
    SwEasyCaseRow2Right(row, col, g, t, a, c);
    SwEasyCaseRow1Left(row, col, g, t, a, c);
    SwEasyCaseRow1Right(row, col, g, t, a, c);
    SwOptimalTracebackEasyCaseFrom65(row, col, g, t, a, c);
    SwOptimalTracebackEasyCaseAt76(row, col, g, t, a, c);
  }

  /** The columns of that alignment score the 13 that cell (7, 6) holds. */
  lemma EasyCaseColumnsScore(g: Letter, t: Letter, a: Letter, c: Letter)
    requires EasyCaseLetters(g, t, a, c)
    ensures ColumnsScore(EasyCaseConfig, [g, t, t, g, a, c], [g, t, t, Gap, a, c]) == 13
  {
    var cfg := EasyCaseConfig;
    ColumnsScorePush(cfg, [], [], g, g);
    assert [] + [g] == [g];
    ColumnsScorePush(cfg, [g], [g], t, t);
    assert [g] + [t] == [g, t];
    ColumnsScorePush(cfg, [g, t], [g, t], t, t);
    assert [g, t] + [t] == [g, t, t];
    ColumnsScorePush(cfg, [g, t, t], [g, t, t], g, Gap);
    assert [g, t, t] + [g] == [g, t, t, g] && [g, t, t] + [Gap] == [g, t, t, Gap];
    ColumnsScorePush(cfg, [g, t, t, g], [g, t, t, Gap], a, a);
    assert [g, t, t, g] + [a] == [g, t, t, g, a] && [g, t, t, Gap] + [a] == [g, t, t, Gap, a];
    ColumnsScorePush(cfg, [g, t, t, g, a], [g, t, t, Gap, a], c, c);
    assert [g, t, t, g, a] + [c] == [g, t, t, g, a, c] && [g, t, t, Gap, a] + [c] == [g, t, t, Gap, a, c];
  }

  /**
   * On that test every result `best_smith_waterman` may return, one traced
   * from a last maximal cell of the reference matrix, is the one the test
   * expects.
   */
  lemma SwEasyCaseResult(row: seq<Letter>, col: seq<Letter>, g: Letter, t: Letter, a: Letter, c: Letter, r: LocalAlignmentResult)
    requires EasyCaseInputs(row, col, g, t, a, c)
    requires IsLastMax(SwGrid(row, col, EasyCaseConfig), |col| + 1, r.alignedRowSeq.end, r.alignedColumnSeq.end)
    requires r == SwAlignmentFrom(SwGrid(row, col, EasyCaseConfig), |col| + 1, row, col, r.alignedRowSeq.end, r.alignedColumnSeq.end)
    ensures r == LocalAlignmentResult(LocallyAlignedSeq(1, 7, [g, t, t, g, a, c]), LocallyAlignedSeq(1, 6, [g, t, t, Gap, a, c]), 13)
  {
    SwEasyCaseMatrix(row, col, g, t, a, c);
    EasyCaseMatrixLastMax();
    SwTracebackEasyCaseMatrix(row, col, g, t, a, c);
  }

  /**
   * The unit test of `best_smith_waterman`, "GGTTGACTA" against "TGTTACGG"
   * with weights 3, -3 and -2, over any four distinct letters standing for
   * G, T, A and C: the code returns rows 1 to 7 "GTTGAC" over columns 1 to 6
   * "GTT-AC" with score 13.
   */
  method BestSmithWatermanEasyCase(g: Letter, t: Letter, a: Letter, c: Letter) returns (result: LocalAlignmentResult)
    requires EasyCaseLetters(g, t, a, c)
    ensures result == LocalAlignmentResult(LocallyAlignedSeq(1, 7, [g, t, t, g, a, c]), LocallyAlignedSeq(1, 6, [g, t, t, Gap, a, c]), 13)
  {
    var row, col := [g, g, t, t, g, a, c, t, a], [t, g, t, t, a, c, g, g];
    assert EasyCaseInputs(row, col, g, t, a, c);
    result := BestSmithWaterman(row, col, EasyCaseConfig);
    SwEasyCaseResult(row, col, g, t, a, c, result);
  }
}
