/**
 * Global alignment by Needleman–Wunsch (src/global.rs): a matrix with linear
 * gap borders, filled by a three-way maximum in a staircase order, then one
 * traceback from the bottom-right cell.
 */
module Global {
  import opened Letters
  import opened Scores
  import opened Seqs
  import opened Matrix
  import opened Moves

  /** The three weights added along an alignment path. */
  datatype GlobalAlignmentConfig = GlobalAlignmentConfig(matchWeight: int, mismatchWeight: int, gapWeight: int)

  /** `GlobalAlignmentConfig::default()`. */
  function DefaultConfig(): (cfg: GlobalAlignmentConfig)
    ensures cfg.matchWeight > 0 > cfg.mismatchWeight > cfg.gapWeight && cfg.mismatchWeight >= 2 * cfg.gapWeight
  {
    GlobalAlignmentConfig(1, -1, -2)
  }

  datatype GlobalAlignmentResult = GlobalAlignmentResult(
    alignedRowSeq: seq<Letter>,
    alignedColumnSeq: seq<Letter>,
    score: int)

  /** Weight of putting letter `a` against letter `b` (the diagonal move of the fill). */
  function NoGapWeight(cfg: GlobalAlignmentConfig, a: Letter, b: Letter): int {
    if a == b then cfg.matchWeight else cfg.mismatchWeight
  }

  /** The value `compute_nw_matrix_cell` gives a cell from its three neighbours. */
  function NwRecurrence(cfg: GlobalAlignmentConfig, a: Letter, b: Letter, topLeft: int, top: int, left: int): int {
    Max(Max(top, left) + cfg.gapWeight, topLeft + NoGapWeight(cfg, a, b))
  }

  /**
   * The reference definition of the global matrix: cell (i, j) is `j * gap` on
   * row 0, `i * gap` on column 0, and the recurrence of its neighbours inside.
   */
  function NwScore(row: seq<Letter>, col: seq<Letter>, cfg: GlobalAlignmentConfig, i: nat, j: nat): int
    requires i <= |row| && j <= |col|
    decreases i + j
  {
    if i == 0 then j * cfg.gapWeight
    else if j == 0 then i * cfg.gapWeight
    else NwRecurrence(cfg, row[i - 1], col[j - 1],
      NwScore(row, col, cfg, i - 1, j - 1), NwScore(row, col, cfg, i - 1, j), NwScore(row, col, cfg, i, j - 1))
  }

  /** No cell of the reference matrix is below `(i + j) * gap`, the score of setting both prefixes entirely against gaps. */
  lemma {:induction false} NwScoreLowerBound(row: seq<Letter>, col: seq<Letter>, cfg: GlobalAlignmentConfig, i: nat, j: nat)
    requires i <= |row| && j <= |col|
    ensures NwScore(row, col, cfg, i, j) >= (i + j) * cfg.gapWeight
    decreases i + j
  {
    if i > 0 && j > 0 {
      NwScoreLowerBound(row, col, cfg, i - 1, j);
      assert (i + j) * cfg.gapWeight == (i - 1 + j) * cfg.gapWeight + cfg.gapWeight;
    }
  }

  /** The whole reference matrix, `|row| + 1` rows of `|col| + 1` cells. */
  function NwGrid(row: seq<Letter>, col: seq<Letter>, cfg: GlobalAlignmentConfig): (g: seq<seq<int>>)
    ensures |g| == |row| + 1 && Rect(g, |col| + 1)
    ensures forall i, j :: 0 <= i <= |row| && 0 <= j <= |col| ==> g[i][j] == NwScore(row, col, cfg, i, j)
  {
    seq(|row| + 1, i requires 0 <= i <= |row| =>
      seq(|col| + 1, j requires 0 <= j <= |col| => NwScore(row, col, cfg, i, j)))
  }

  /** Row 0 and column 0 of `g` hold the prefix-gap costs `j * gap` and `i * gap`. */
  ghost predicate HasNwBorders(g: seq<seq<int>>, n: nat, m: nat, cfg: GlobalAlignmentConfig)
    requires |g| == n + 1 && Rect(g, m + 1)
  {
    (forall j :: 0 <= j <= m ==> g[0][j] == j * cfg.gapWeight) &&
    (forall i :: 0 <= i <= n ==> g[i][0] == i * cfg.gapWeight)
  }

  /** Interior cell (i, j) of `g` is the recurrence of its top-left, top and left neighbours. */
  ghost predicate SatisfiesNwRecurrence(g: seq<seq<int>>, row: seq<Letter>, col: seq<Letter>, cfg: GlobalAlignmentConfig, i: nat, j: nat) {
    1 <= i <= |row| && 1 <= j <= |col| && i < |g| && j < |g[i]| && j < |g[i - 1]| &&
    g[i][j] == NwRecurrence(cfg, row[i - 1], col[j - 1], g[i - 1][j - 1], g[i - 1][j], g[i][j - 1])
  }

  /** Overwriting a cell that is neither (a, b) nor one of its neighbours keeps (a, b) satisfying the recurrence. */
  lemma NwRecurrenceKept(g: seq<seq<int>>, row: seq<Letter>, col: seq<Letter>, cfg: GlobalAlignmentConfig, x: nat, y: nat, v: int, a: nat, b: nat)
    requires x < |g| && y < |g[x]|
    requires SatisfiesNwRecurrence(g, row, col, cfg, a, b)
    requires x != a || y != b
    requires x != a - 1 || y != b - 1
    requires x != a - 1 || y != b
    requires x != a || y != b - 1
    ensures SatisfiesNwRecurrence(g[x := g[x][y := v]], row, col, cfg, a, b)
  {
  }

  lemma {:induction false} NwCellUnique(row: seq<Letter>, col: seq<Letter>, cfg: GlobalAlignmentConfig, g: seq<seq<int>>, i: nat, j: nat)
    requires |g| == |row| + 1 && Rect(g, |col| + 1) && HasNwBorders(g, |row|, |col|, cfg)
    requires forall a, b :: 1 <= a <= |row| && 1 <= b <= |col| ==> SatisfiesNwRecurrence(g, row, col, cfg, a, b)
    requires i <= |row| && j <= |col|
    ensures g[i][j] == NwScore(row, col, cfg, i, j)
    decreases i + j
  {
    if i > 0 && j > 0 {
      NwCellUnique(row, col, cfg, g, i - 1, j - 1);
      NwCellUnique(row, col, cfg, g, i - 1, j);
      NwCellUnique(row, col, cfg, g, i, j - 1);
      assert SatisfiesNwRecurrence(g, row, col, cfg, i, j);
    }
  }

  /** Borders and recurrence determine the matrix: any grid meeting both is the reference matrix. */
  lemma NwGridUnique(row: seq<Letter>, col: seq<Letter>, cfg: GlobalAlignmentConfig, g: seq<seq<int>>)
    requires |g| == |row| + 1 && Rect(g, |col| + 1) && HasNwBorders(g, |row|, |col|, cfg)
    requires forall a, b :: 1 <= a <= |row| && 1 <= b <= |col| ==> SatisfiesNwRecurrence(g, row, col, cfg, a, b)
    ensures g == NwGrid(row, col, cfg)
  {
    var reference := NwGrid(row, col, cfg);
    forall i | 0 <= i <= |row|
      ensures g[i] == reference[i]
    {
      forall j | 0 <= j <= |col|
        ensures g[i][j] == reference[i][j]
      {
        NwCellUnique(row, col, cfg, g, i, j);
      }
    }
  }

  /** `fill_nw_matrix_base`: writes `j * gap` along row 0 and `i * gap` down column 0. */
  method FillNwMatrixBase(row: seq<Letter>, col: seq<Letter>, cfg: GlobalAlignmentConfig, matrix: AlignmentMatrix)
    requires matrix.Valid() && |matrix.cells| == |row| + 1 && matrix.width == |col| + 1
    modifies matrix, matrix.buf
    ensures matrix.Valid() && |matrix.cells| == |row| + 1
    ensures forall j :: 1 <= j <= |col| ==> matrix.cells[0][j] == j * cfg.gapWeight
    ensures forall i :: 1 <= i <= |row| ==> matrix.cells[i][0] == i * cfg.gapWeight
    ensures forall i, j :: 0 <= i <= |row| && 0 <= j <= |col| && (i == 0 <==> j == 0) ==>
      matrix.cells[i][j] == old(matrix.cells)[i][j]
  {
    for j := 1 to |col| + 1
      invariant matrix.Valid() && |matrix.cells| == |row| + 1
      invariant forall c :: 1 <= c < j ==> matrix.cells[0][c] == c * cfg.gapWeight
      invariant forall a, b :: 0 <= a <= |row| && 0 <= b <= |col| && !(a == 0 && 1 <= b < j) ==>
        matrix.cells[a][b] == old(matrix.cells)[a][b]
    {
      var score := j * cfg.gapWeight;
      matrix.SetAt(0, j, score);
    }
    for i := 1 to |row| + 1
      invariant matrix.Valid() && |matrix.cells| == |row| + 1
      invariant forall c :: 1 <= c <= |col| ==> matrix.cells[0][c] == c * cfg.gapWeight
      invariant forall r :: 1 <= r < i ==> matrix.cells[r][0] == r * cfg.gapWeight
      invariant forall a, b :: 0 <= a <= |row| && 0 <= b <= |col| && !(a == 0 && 1 <= b) && !(b == 0 && 1 <= a < i) ==>
        matrix.cells[a][b] == old(matrix.cells)[a][b]
    {
      var score := i * cfg.gapWeight;
      matrix.SetAt(i, 0, score);
    }
  }

  /** `compute_nw_matrix_cell`: cell (predI + 1, predJ + 1) from its three neighbours; nothing else changes. */
  method ComputeNwMatrixCell(row: seq<Letter>, col: seq<Letter>, cfg: GlobalAlignmentConfig, matrix: AlignmentMatrix, predI: nat, predJ: nat)
    requires matrix.Valid() && predI + 1 < |matrix.cells| && predJ + 1 < matrix.width
    modifies matrix, matrix.buf
    ensures matrix.Valid()
    ensures matrix.cells == old(matrix.cells)[predI + 1 := old(matrix.cells)[predI + 1][predJ + 1 :=
      NwRecurrence(cfg, LetterAt(row, predI), LetterAt(col, predJ),
        old(matrix.cells)[predI][predJ], old(matrix.cells)[predI][predJ + 1], old(matrix.cells)[predI + 1][predJ])]]
  {
    var topLeft := matrix.At(predI, predJ);
    var top := matrix.At(predI, predJ + 1);
    var left := matrix.At(predI + 1, predJ);

    var rowLetter := LetterAt(row, predI);
    var columnLetter := LetterAt(col, predJ);
    var noGapWeight := if rowLetter == columnLetter then cfg.matchWeight else cfg.mismatchWeight;
    var noGapScore := topLeft + noGapWeight;

    var bestGapNeighbor := Max(top, left);
    var bestGapScore := bestGapNeighbor + cfg.gapWeight;

    matrix.SetAt(predI + 1, predJ + 1, Max(bestGapScore, noGapScore));
  }

  /** Every interior cell with i <= r or j <= c satisfies the recurrence: what the staircase has finished. */
  ghost predicate NwSettled(g: seq<seq<int>>, row: seq<Letter>, col: seq<Letter>, cfg: GlobalAlignmentConfig, r: nat, c: nat) {
    forall i, j :: 1 <= i <= |row| && 1 <= j <= |col| && (i <= r || j <= c) ==> SatisfiesNwRecurrence(g, row, col, cfg, i, j)
  }

  /**
   * The first inner loop of `fill_nw_matrix_content`: with every cell of rows
   * up to `baseI` and columns up to `baseJ` final, it computes row `baseI + 1`
   * from column `baseJ + 1` to the end, each cell after its left neighbour.
   */
  method FillNwRowPass(row: seq<Letter>, col: seq<Letter>, cfg: GlobalAlignmentConfig, matrix: AlignmentMatrix, baseI: nat, baseJ: nat)
    requires matrix.Valid() && |matrix.cells| == |row| + 1 && matrix.width == |col| + 1
    requires baseI == baseJ && baseI < |row| && baseJ <= |col|
    requires NwSettled(matrix.cells, row, col, cfg, baseI, baseJ)
    modifies matrix, matrix.buf
    ensures matrix.Valid() && |matrix.cells| == |row| + 1
    ensures SameBorders(matrix.cells, old(matrix.cells), |row|, |col|)
    ensures NwSettled(matrix.cells, row, col, cfg, baseI + 1, baseJ)
    ensures SameOutsideRow(matrix.cells, old(matrix.cells), |row|, |col|, baseI + 1, baseJ)
  {
    for j := baseJ to |col|
      invariant matrix.Valid() && |matrix.cells| == |row| + 1
      invariant SameBorders(matrix.cells, old(matrix.cells), |row|, |col|)
      invariant SameOutsideRow(matrix.cells, old(matrix.cells), |row|, |col|, baseI + 1, baseJ)
      invariant forall a, b :: 1 <= a <= |row| && 1 <= b <= |col| && (a <= baseI || b <= baseJ || (a == baseI + 1 && b <= j)) ==>
        SatisfiesNwRecurrence(matrix.cells, row, col, cfg, a, b)
    {
      ghost var before := matrix.cells;
      ComputeNwMatrixCell(row, col, cfg, matrix, baseI, j);
      forall a, b | 1 <= a <= |row| && 1 <= b <= |col| && (a <= baseI || b <= baseJ || (a == baseI + 1 && b <= j))
        ensures SatisfiesNwRecurrence(matrix.cells, row, col, cfg, a, b)
      {
        NwRecurrenceKept(before, row, col, cfg, baseI + 1, j + 1, matrix.cells[baseI + 1][j + 1], a, b);
      }
    }
  }

  /**
   * The second inner loop of `fill_nw_matrix_content`: with rows up to `baseI`
   * and columns up to `baseJ` final, it computes column `baseJ + 1` from row
   * `baseI + 1` to the end, each cell after its top neighbour.
   */
  method FillNwColumnPass(row: seq<Letter>, col: seq<Letter>, cfg: GlobalAlignmentConfig, matrix: AlignmentMatrix, baseI: nat, baseJ: nat)
    requires matrix.Valid() && |matrix.cells| == |row| + 1 && matrix.width == |col| + 1
    requires baseI == baseJ + 1 && baseI <= |row| && baseJ < |col|
    requires NwSettled(matrix.cells, row, col, cfg, baseI, baseJ)
    modifies matrix, matrix.buf
    ensures matrix.Valid() && |matrix.cells| == |row| + 1
    ensures SameBorders(matrix.cells, old(matrix.cells), |row|, |col|)
    ensures NwSettled(matrix.cells, row, col, cfg, baseI, baseJ + 1)
    ensures SameOutsideColumn(matrix.cells, old(matrix.cells), |row|, |col|, baseI, baseJ + 1)
  {
    for i := baseI to |row|
      invariant matrix.Valid() && |matrix.cells| == |row| + 1
      invariant SameBorders(matrix.cells, old(matrix.cells), |row|, |col|)
      invariant SameOutsideColumn(matrix.cells, old(matrix.cells), |row|, |col|, baseI, baseJ + 1)
      invariant forall a, b :: 1 <= a <= |row| && 1 <= b <= |col| && (a <= baseI || b <= baseJ || (b == baseJ + 1 && a <= i)) ==>
        SatisfiesNwRecurrence(matrix.cells, row, col, cfg, a, b)
    {
      ghost var before := matrix.cells;
      ComputeNwMatrixCell(row, col, cfg, matrix, i, baseJ);
      forall a, b | 1 <= a <= |row| && 1 <= b <= |col| && (a <= baseI || b <= baseJ || (b == baseJ + 1 && a <= i))
        ensures SatisfiesNwRecurrence(matrix.cells, row, col, cfg, a, b)
      {
        NwRecurrenceKept(before, row, col, cfg, i + 1, baseJ + 1, matrix.cells[i + 1][baseJ + 1], a, b);
      }
    }
  }

  /**
   * `fill_nw_matrix_content`: the staircase. Pass k fills row k + 1 from column
   * k + 1 rightwards, then column k + 1 from row k + 2 downwards; before pass k
   * every cell with i <= k or j <= k is final, so each interior cell is written
   * once, after its three neighbours. Rust panics when the row sequence is empty
   * and the column sequence is not: pass 0 then writes row 1 of a one-row matrix.
   */
  method FillNwMatrixContent(row: seq<Letter>, col: seq<Letter>, cfg: GlobalAlignmentConfig, matrix: AlignmentMatrix)
    requires matrix.Valid() && |matrix.cells| == |row| + 1 && matrix.width == |col| + 1
    requires |row| > 0 || |col| == 0
    modifies matrix, matrix.buf
    ensures matrix.Valid() && |matrix.cells| == |row| + 1
    ensures SameBorders(matrix.cells, old(matrix.cells), |row|, |col|)
    ensures forall i, j :: 1 <= i <= |row| && 1 <= j <= |col| ==> SatisfiesNwRecurrence(matrix.cells, row, col, cfg, i, j)
  {
    var baseI, baseJ := 0, 0;
    while baseJ < |col|
      invariant matrix.Valid() && |matrix.cells| == |row| + 1
      invariant baseI == baseJ <= |col| && (baseJ < |row| || baseJ == |col|)
      invariant SameBorders(matrix.cells, old(matrix.cells), |row|, |col|)
      invariant NwSettled(matrix.cells, row, col, cfg, baseI, baseJ)
      decreases |col| - baseJ
    {
      FillNwRowPass(row, col, cfg, matrix, baseI, baseJ);
      baseI := baseI + 1;

      if baseI >= |row| {
        break;
      }
      FillNwColumnPass(row, col, cfg, matrix, baseI, baseJ);
      baseJ := baseJ + 1;
    }
  }

  /** `compute_nw_matrix`: a fresh (|row| + 1) by (|col| + 1) matrix holding the reference matrix. */
  method ComputeNwMatrix(row: seq<Letter>, col: seq<Letter>, cfg: GlobalAlignmentConfig) returns (matrix: AlignmentMatrix)
    requires |row| > 0 || |col| == 0
    ensures fresh(matrix) && fresh(matrix.buf)
    ensures matrix.Valid() && matrix.width == |col| + 1
    ensures matrix.cells == NwGrid(row, col, cfg)
  {
    var rowCount := |row| + 1;
    var columnCount := |col| + 1;
    matrix := new AlignmentMatrix(rowCount, columnCount);
    FillNwMatrixBase(row, col, cfg, matrix);
    FillNwMatrixContent(row, col, cfg, matrix);
    NwGridUnique(row, col, cfg, matrix.cells);
  }

  /** The weight the traceback adds for one aligned column (a gap on either side costs `gapWeight`). */
  function ColumnWeight(cfg: GlobalAlignmentConfig, a: Letter, b: Letter): (r: int)
    ensures a == Gap || b == Gap ==> r == cfg.gapWeight
    ensures a != Gap && b != Gap ==> r == NoGapWeight(cfg, a, b)
  {
    if a == Gap || b == Gap then cfg.gapWeight
    else if a == b then cfg.matchWeight
    else cfg.mismatchWeight
  }

  /** The score of two aligned sequences, summed column by column. */
  function ColumnsScore(cfg: GlobalAlignmentConfig, a: seq<Letter>, b: seq<Letter>): int
    requires |a| == |b|
    decreases |a|
  {
    if |a| == 0 then 0
    else ColumnsScore(cfg, a[..|a| - 1], b[..|b| - 1]) + ColumnWeight(cfg, a[|a| - 1], b[|b| - 1])
  }

  /** `result` with one more column `(a, b)` at its end, worth `weight`. */
  function Extend(result: GlobalAlignmentResult, a: Letter, b: Letter, weight: int): GlobalAlignmentResult {
    GlobalAlignmentResult(result.alignedRowSeq + [a], result.alignedColumnSeq + [b], result.score + weight)
  }

  /** An alignment built back to front from a cell, and the cell where it stopped. */
  datatype NwTrace = NwTrace(result: GlobalAlignmentResult, stopI: nat, stopJ: nat)

  /**
   * The move `mount_best_nw_alignment` makes from cell (i, j): to a neighbour
   * holding the largest of the three neighbour values, preferring the
   * top-left one, then the top one, then the left one.
   */
  function NwMoveAt(g: seq<seq<int>>, w: nat, i: nat, j: nat): (m: Move)
    requires Rect(g, w) && 0 < i < |g| && 0 < j < w
    ensures m == Diagonal <==> g[i - 1][j - 1] >= g[i - 1][j] && g[i - 1][j - 1] >= g[i][j - 1]
    ensures m == Up <==> g[i - 1][j] > g[i - 1][j - 1] && g[i - 1][j] >= g[i][j - 1]
    ensures m == Left <==> g[i][j - 1] > g[i - 1][j - 1] && g[i][j - 1] > g[i - 1][j]
  {
    NeighbourMaxMove(g[i - 1][j - 1], g[i - 1][j], g[i][j - 1])
  }

  /** The choice `NwMoveAt` makes from the three neighbour values alone. */
  function NeighbourMaxMove(topLeft: int, top: int, left: int): (m: Move)
    ensures m == Diagonal <==> topLeft >= top && topLeft >= left
    ensures m == Up <==> top > topLeft && top >= left
    ensures m == Left <==> left > topLeft && left > top
  {
    var maximum := Max(Max(topLeft, top), left);
    if topLeft == maximum then Diagonal
    else if top == maximum then Up
    else Left
  }

  /**
   * The traceback of `mount_best_nw_alignment` from cell (i, j) of grid `g`,
   * with the aligned sequences in reading order: it follows `NwMoveAt` while
   * both indices are positive, and stops as soon as either index is 0.
   */
  function NwTraceback(g: seq<seq<int>>, w: nat, row: seq<Letter>, col: seq<Letter>, cfg: GlobalAlignmentConfig, i: nat, j: nat): (t: NwTrace)
    requires Rect(g, w) && i < |g| && j < w
    ensures |t.result.alignedRowSeq| == |t.result.alignedColumnSeq|
    ensures t.stopI <= i && t.stopJ <= j && (t.stopI == 0 || t.stopJ == 0)
    ensures i - t.stopI <= |t.result.alignedRowSeq| && j - t.stopJ <= |t.result.alignedRowSeq|
    ensures |t.result.alignedRowSeq| <= (i - t.stopI) + (j - t.stopJ)
    decreases i + j
  {
    if i == 0 || j == 0 then NwTrace(GlobalAlignmentResult([], [], 0), i, j)
    else
      var m := NwMoveAt(g, w, i, j);
      var p := StepBack(m, i, j);
      var a := RowLetter(m, row, i);
      var b := ColumnLetter(m, col, j);
      var t := NwTraceback(g, w, row, col, cfg, p.0, p.1);
      NwTrace(Extend(t.result, a, b, ColumnWeight(cfg, a, b)), t.stopI, t.stopJ)
  }

  /** Away from the first row and column, the traceback is one move followed by the traceback of the neighbour it moves to. */
  lemma NwTracebackUnfold(g: seq<seq<int>>, w: nat, row: seq<Letter>, col: seq<Letter>, cfg: GlobalAlignmentConfig, i: nat, j: nat)
    requires Rect(g, w) && 0 < i < |g| && 0 < j < w
    ensures var m := NwMoveAt(g, w, i, j);
      var p, a, b := StepBack(m, i, j), RowLetter(m, row, i), ColumnLetter(m, col, j);
      NwTraceback(g, w, row, col, cfg, i, j).result == Extend(NwTraceback(g, w, row, col, cfg, p.0, p.1).result, a, b, ColumnWeight(cfg, a, b))
  {
  }

  /** The reported score is the column-by-column score of the alignment the traceback returns. */
  lemma {:induction false} NwTracebackScore(g: seq<seq<int>>, w: nat, row: seq<Letter>, col: seq<Letter>, cfg: GlobalAlignmentConfig, i: nat, j: nat)
    requires Rect(g, w) && i < |g| && j < w
    ensures var r := NwTraceback(g, w, row, col, cfg, i, j).result;
      r.score == ColumnsScore(cfg, r.alignedRowSeq, r.alignedColumnSeq)
    decreases i + j
  {
    if i > 0 && j > 0 {
      var m := NwMoveAt(g, w, i, j);
      var p := StepBack(m, i, j);
      NwTracebackScore(g, w, row, col, cfg, p.0, p.1);
      ExtendScore(cfg, NwTraceback(g, w, row, col, cfg, p.0, p.1).result, RowLetter(m, row, i), ColumnLetter(m, col, j));
    }
  }

  /** One more column adds its column weight to the column-by-column score. */
  lemma ExtendScore(cfg: GlobalAlignmentConfig, p: GlobalAlignmentResult, a: Letter, b: Letter)
    requires |p.alignedRowSeq| == |p.alignedColumnSeq| && p.score == ColumnsScore(cfg, p.alignedRowSeq, p.alignedColumnSeq)
    ensures var r := Extend(p, a, b, ColumnWeight(cfg, a, b));
      r.score == ColumnsScore(cfg, r.alignedRowSeq, r.alignedColumnSeq)
  {
    var r := Extend(p, a, b, ColumnWeight(cfg, a, b));
    assert r.alignedRowSeq[..|r.alignedRowSeq| - 1] == p.alignedRowSeq;
    assert r.alignedColumnSeq[..|r.alignedColumnSeq| - 1] == p.alignedColumnSeq;
  }

  /**
   * Over gap-free inputs, the aligned row without its gaps is the slice of the
   * row between the stop index and the start index, and likewise for the
   * column: only a suffix of each prefix is aligned, since the traceback stops
   * when either index reaches 0.
   */
  lemma {:induction false} NwTracebackLetters(g: seq<seq<int>>, w: nat, row: seq<Letter>, col: seq<Letter>, cfg: GlobalAlignmentConfig, i: nat, j: nat)
    requires Rect(g, w) && i < |g| && j < w
    requires NoGap(row) && NoGap(col) && i <= |row| && j <= |col|
    ensures var t := NwTraceback(g, w, row, col, cfg, i, j);
      RemoveGaps(t.result.alignedRowSeq) == row[t.stopI..i] &&
      RemoveGaps(t.result.alignedColumnSeq) == col[t.stopJ..j]
    decreases i + j
  {
    if i > 0 && j > 0 {
      var m := NwMoveAt(g, w, i, j);
      var p := StepBack(m, i, j);
      NwTracebackLetters(g, w, row, col, cfg, p.0, p.1);
      var before := NwTraceback(g, w, row, col, cfg, p.0, p.1);
      var after := NwTraceback(g, w, row, col, cfg, i, j);
      LettersStep(before.result.alignedRowSeq, after.result.alignedRowSeq, row, before.stopI, p.0, i);
      LettersStep(before.result.alignedColumnSeq, after.result.alignedColumnSeq, col, before.stopJ, p.1, j);
    } else {
      assert row[i..i] == [] && col[j..j] == [];
    }
  }

  /**
   * The alignment a traceback in progress will return: the part still to be
   * traced from the current cell, followed by the columns pushed so far, which
   * sit in back-to-front order.
   */
  function Joined(rest: GlobalAlignmentResult, pushed: GlobalAlignmentResult): GlobalAlignmentResult {
    GlobalAlignmentResult(
      rest.alignedRowSeq + Reversed(pushed.alignedRowSeq),
      rest.alignedColumnSeq + Reversed(pushed.alignedColumnSeq),
      rest.score + pushed.score)
  }

  /** On the top row or the left column the traceback has nothing left to push. */
  lemma NwTracebackAtBorder(g: seq<seq<int>>, w: nat, row: seq<Letter>, col: seq<Letter>, cfg: GlobalAlignmentConfig, i: nat, j: nat)
    requires Rect(g, w) && i < |g| && j < w && (i == 0 || j == 0)
    ensures NwTraceback(g, w, row, col, cfg, i, j).result == GlobalAlignmentResult([], [], 0)
  {
  }

  /** Once the walk reaches the first row or column, the pushed columns are the whole alignment. */
  lemma NwTracebackDone(g: seq<seq<int>>, w: nat, row: seq<Letter>, col: seq<Letter>, cfg: GlobalAlignmentConfig, i: nat, j: nat,
                        whole: GlobalAlignmentResult, pushed: GlobalAlignmentResult)
    requires Rect(g, w) && i < |g| && j < w && (i == 0 || j == 0)
    requires whole == Joined(NwTraceback(g, w, row, col, cfg, i, j).result, pushed)
    ensures whole == Joined(GlobalAlignmentResult([], [], 0), pushed)
  {
    NwTracebackAtBorder(g, w, row, col, cfg, i, j);
  }

  /** With nothing pushed yet, the joined alignment is what is left to trace. */
  lemma JoinedNothingPushed(rest: GlobalAlignmentResult)
    ensures Joined(rest, GlobalAlignmentResult([], [], 0)) == rest
  {
    assert rest.alignedRowSeq + [] == rest.alignedRowSeq;
    assert rest.alignedColumnSeq + [] == rest.alignedColumnSeq;
  }

  /** With nothing left to trace, the joined alignment is the pushed columns put back in reading order. */
  lemma JoinedNothingLeft(pushed: GlobalAlignmentResult)
    ensures Joined(GlobalAlignmentResult([], [], 0), pushed)
      == GlobalAlignmentResult(Reversed(pushed.alignedRowSeq), Reversed(pushed.alignedColumnSeq), pushed.score)
  {
    assert [] + Reversed(pushed.alignedRowSeq) == Reversed(pushed.alignedRowSeq);
    assert [] + Reversed(pushed.alignedColumnSeq) == Reversed(pushed.alignedColumnSeq);
  }

  /** Moving one column from the part still to be traced onto the pushed columns keeps the joined alignment. */
  lemma MountStep(rest: GlobalAlignmentResult, pushed: GlobalAlignmentResult, a: Letter, b: Letter, weight: int)
    ensures Joined(Extend(rest, a, b, weight), pushed) == Joined(rest, Extend(pushed, a, b, weight))
  {
    PushAcross(rest.alignedRowSeq, a, pushed.alignedRowSeq);
    PushAcross(rest.alignedColumnSeq, b, pushed.alignedColumnSeq);
  }

  /** One traceback move keeps the alignment a traceback in progress will return. */
  lemma MountInvariantStep(g: seq<seq<int>>, w: nat, row: seq<Letter>, col: seq<Letter>, cfg: GlobalAlignmentConfig, i: nat, j: nat,
                           whole: GlobalAlignmentResult, pushed: GlobalAlignmentResult)
    requires Rect(g, w) && 0 < i < |g| && 0 < j < w
    requires whole == Joined(NwTraceback(g, w, row, col, cfg, i, j).result, pushed)
    ensures var m := NwMoveAt(g, w, i, j);
      var p, a, b := StepBack(m, i, j), RowLetter(m, row, i), ColumnLetter(m, col, j);
      whole == Joined(NwTraceback(g, w, row, col, cfg, p.0, p.1).result, Extend(pushed, a, b, ColumnWeight(cfg, a, b)))
  {
    var m := NwMoveAt(g, w, i, j);
    var p, a, b := StepBack(m, i, j), RowLetter(m, row, i), ColumnLetter(m, col, j);
    NwTracebackUnfold(g, w, row, col, cfg, i, j);
    MountStep(NwTraceback(g, w, row, col, cfg, p.0, p.1).result, pushed, a, b, ColumnWeight(cfg, a, b));
  }

  /**
   * The body of the loop of `mount_best_nw_alignment` at cell (i, j), both
   * indices positive: it reads the three neighbours, moves to the largest
   * (top-left first, then top, then left) and returns the column it pushes
   * and that column's weight.
   */
  method NwTracebackStep(row: seq<Letter>, col: seq<Letter>, cfg: GlobalAlignmentConfig, matrix: AlignmentMatrix, i: nat, j: nat)
    returns (nextI: nat, nextJ: nat, rowLetter: Letter, columnLetter: Letter, weight: int)
    requires matrix.Valid() && 0 < i < |matrix.cells| && 0 < j < matrix.width
    ensures var m := NwMoveAt(matrix.cells, matrix.width, i, j);
      (nextI, nextJ) == StepBack(m, i, j) &&
      rowLetter == RowLetter(m, row, i) && columnLetter == ColumnLetter(m, col, j)
    ensures weight == ColumnWeight(cfg, rowLetter, columnLetter)
  {
    var topLeft := matrix.At(i - 1, j - 1);
    var top := matrix.At(i - 1, j);
    var left := matrix.At(i, j - 1);
    var maximum := Max(Max(topLeft, top), left);

    if i > 0 && j > 0 && topLeft == maximum {
      nextI, nextJ := i - 1, j - 1;
      rowLetter := LetterAt(row, nextI);
      columnLetter := LetterAt(col, nextJ);
      weight := ColumnWeight(cfg, rowLetter, columnLetter);
    } else if i > 0 && top == maximum {
      nextI, nextJ := i - 1, j;
      rowLetter, columnLetter, weight := LetterAt(row, nextI), Gap, cfg.gapWeight;
    } else {
      nextI, nextJ := i, j - 1;
      rowLetter, columnLetter, weight := Gap, LetterAt(col, nextJ), cfg.gapWeight;
    }
  }

  /**
   * One pass of the loop of `mount_best_nw_alignment`: one traceback step
   * from (i, j) and the push of its column. The columns pushed so far and
   * the traceback still to run from the new cell keep making up the same
   * whole alignment.
   */
  method PushNwStep(row: seq<Letter>, col: seq<Letter>, cfg: GlobalAlignmentConfig, matrix: AlignmentMatrix, i: nat, j: nat,
                    ghost whole: GlobalAlignmentResult, pushed: GlobalAlignmentResult)
    returns (nextI: nat, nextJ: nat, nextPushed: GlobalAlignmentResult)
    requires matrix.Valid() && 0 < i < |matrix.cells| && 0 < j < matrix.width
    requires whole == Joined(NwTraceback(matrix.cells, matrix.width, row, col, cfg, i, j).result, pushed)
    ensures nextI + nextJ < i + j && nextI < |matrix.cells| && nextJ < matrix.width
    ensures whole == Joined(NwTraceback(matrix.cells, matrix.width, row, col, cfg, nextI, nextJ).result, nextPushed)
  {
    var rowLetter, columnLetter, weight;
    nextI, nextJ, rowLetter, columnLetter, weight := NwTracebackStep(row, col, cfg, matrix, i, j);
    MountInvariantStep(matrix.cells, matrix.width, row, col, cfg, i, j, whole, pushed);
    nextPushed := Extend(pushed, rowLetter, columnLetter, weight);
  }

  /**
   * The loop of `mount_best_nw_alignment`: walks back from the bottom-right
   * cell while both indices are positive, pushing one column per step and
   * adding its weight to the score. The pushed columns, read backwards, are
   * the traceback of the matrix's grid.
   */
  method PushNwTraceback(row: seq<Letter>, col: seq<Letter>, cfg: GlobalAlignmentConfig, matrix: AlignmentMatrix)
    returns (pushed: GlobalAlignmentResult)
    requires matrix.Valid() && matrix.width > 0 && |matrix.cells| > 0
    ensures NwTraceback(matrix.cells, matrix.width, row, col, cfg, |matrix.cells| - 1, matrix.width - 1).result
      == Joined(GlobalAlignmentResult([], [], 0), pushed)
  {
    ghost var g, w := matrix.cells, matrix.width;
    ghost var whole := NwTraceback(g, w, row, col, cfg, |g| - 1, w - 1).result;
    pushed := GlobalAlignmentResult([], [], 0);

    var currentI: nat := matrix.Height() - 1;
    var currentJ: nat := matrix.width - 1;
    JoinedNothingPushed(whole);
    while currentI > 0 && currentJ > 0
      invariant currentI < |g| && currentJ < w
      invariant whole == Joined(NwTraceback(g, w, row, col, cfg, currentI, currentJ).result, pushed)
      decreases currentI + currentJ
    {
      currentI, currentJ, pushed := PushNwStep(row, col, cfg, matrix, currentI, currentJ, whole, pushed);
    }
    NwTracebackDone(g, w, row, col, cfg, currentI, currentJ, whole, pushed);
  }

  /**
   * `mount_best_nw_alignment`: the pushed columns reversed into reading
   * order. The result is the traceback of the matrix's grid.
   */
  method MountBestNwAlignment(row: seq<Letter>, col: seq<Letter>, cfg: GlobalAlignmentConfig, matrix: AlignmentMatrix)
    returns (result: GlobalAlignmentResult)
    requires matrix.Valid() && matrix.width > 0 && |matrix.cells| > 0
    ensures result == NwTraceback(matrix.cells, matrix.width, row, col, cfg, |matrix.cells| - 1, matrix.width - 1).result
  {
    var pushed := PushNwTraceback(row, col, cfg, matrix);
    JoinedNothingLeft(pushed);
    result := GlobalAlignmentResult(Reversed(pushed.alignedRowSeq), Reversed(pushed.alignedColumnSeq), pushed.score);
  }

  /**
   * `needleman_wunsch`: the traceback of the reference matrix from its
   * bottom-right cell. Rust panics for an empty row sequence against a
   * non-empty column sequence (see `FillNwMatrixContent`).
   */
  method NeedlemanWunsch(row: seq<Letter>, col: seq<Letter>, cfg: GlobalAlignmentConfig) returns (result: GlobalAlignmentResult)
    requires |row| > 0 || |col| == 0
    ensures result == NwTraceback(NwGrid(row, col, cfg), |col| + 1, row, col, cfg, |row|, |col|).result
  {
    var matrix := ComputeNwMatrix(row, col, cfg);
    result := MountBestNwAlignment(row, col, cfg, matrix);
  }

  /** A cell is at least its top-left neighbour plus the weight of the two letters it crosses. */
  lemma NwScoreDiagonalBound(row: seq<Letter>, col: seq<Letter>, cfg: GlobalAlignmentConfig, i: nat, j: nat)
    requires 0 < i <= |row| && 0 < j <= |col|
    ensures NwScore(row, col, cfg, i, j) >= NwScore(row, col, cfg, i - 1, j - 1) + NoGapWeight(cfg, row[i - 1], col[j - 1])
  {
  }

  /** A cell off the first row is at least its top neighbour plus the gap weight (equal to it on column 0). */
  lemma NwScoreUpBound(row: seq<Letter>, col: seq<Letter>, cfg: GlobalAlignmentConfig, i: nat, j: nat)
    requires 0 < i <= |row| && j <= |col|
    ensures NwScore(row, col, cfg, i, j) >= NwScore(row, col, cfg, i - 1, j) + cfg.gapWeight
  {
    if j == 0 {
      assert i * cfg.gapWeight == (i - 1) * cfg.gapWeight + cfg.gapWeight;
    }
  }

  /** A cell off the first column is at least its left neighbour plus the gap weight (equal to it on row 0). */
  lemma NwScoreLeftBound(row: seq<Letter>, col: seq<Letter>, cfg: GlobalAlignmentConfig, i: nat, j: nat)
    requires i <= |row| && 0 < j <= |col|
    ensures NwScore(row, col, cfg, i, j) >= NwScore(row, col, cfg, i, j - 1) + cfg.gapWeight
  {
    if i == 0 {
      assert j * cfg.gapWeight == (j - 1) * cfg.gapWeight + cfg.gapWeight;
    }
  }

  /** The score of two aligned sequences grows by the weight of the column appended to them. */
  lemma ColumnsScorePush(cfg: GlobalAlignmentConfig, a: seq<Letter>, b: seq<Letter>, x: Letter, y: Letter)
    requires |a| == |b|
    ensures ColumnsScore(cfg, a + [x], b + [y]) == ColumnsScore(cfg, a, b) + ColumnWeight(cfg, x, y)
  {
    assert (a + [x])[..|a|] == a && (b + [y])[..|b|] == b;
  }

  /**
   * Optimality of the reference matrix: no alignment of the prefixes
   * `row[..i]` and `col[..j]` scores more than `NwScore(i, j)`.
   */
  lemma {:induction false} NwScoreOptimal(row: seq<Letter>, col: seq<Letter>, cfg: GlobalAlignmentConfig, i: nat, j: nat, a: seq<Letter>, b: seq<Letter>)
    requires NoGap(row) && NoGap(col) && i <= |row| && j <= |col|
    requires IsAlignmentOf(a, b, row[..i], col[..j])
    ensures ColumnsScore(cfg, a, b) <= NwScore(row, col, cfg, i, j)
    decreases |a|
  {
    var n := |a|;
    if n == 0 {
      assert |row[..i]| == 0 && |col[..j]| == 0;
    } else {
      var pa, pb, x, y := a[..n - 1], b[..n - 1], a[n - 1], b[n - 1];
      assert a == pa + [x] && b == pb + [y];
      NoGapColumnsPush(pa, pb, x, y);
      if x != Gap && y != Gap {
        RemoveGapsLastLetter(pa, x, row, i);
        RemoveGapsLastLetter(pb, y, col, j);
        NwScoreOptimal(row, col, cfg, i - 1, j - 1, pa, pb);
        NwScoreDiagonalBound(row, col, cfg, i, j);
        NwPushBound(row, col, cfg, i, j, i - 1, j - 1, pa, pb, x, y);
      } else if x != Gap {
        RemoveGapsLastLetter(pa, x, row, i);
        RemoveGapsLastGap(pb, col[..j]);
        NwScoreOptimal(row, col, cfg, i - 1, j, pa, pb);
        NwScoreUpBound(row, col, cfg, i, j);
        NwPushBound(row, col, cfg, i, j, i - 1, j, pa, pb, x, y);
      } else {
        RemoveGapsLastGap(pa, row[..i]);
        RemoveGapsLastLetter(pb, y, col, j);
        NwScoreOptimal(row, col, cfg, i, j - 1, pa, pb);
        NwScoreLeftBound(row, col, cfg, i, j);
        NwPushBound(row, col, cfg, i, j, i, j - 1, pa, pb, x, y);
      }
    }
  }

  /** Pushing a column whose weight the cell (i, j) covers over cell (pi, pj) keeps the score of an alignment at most the cell. */
  lemma NwPushBound(row: seq<Letter>, col: seq<Letter>, cfg: GlobalAlignmentConfig, i: nat, j: nat, pi: nat, pj: nat,
                    pa: seq<Letter>, pb: seq<Letter>, x: Letter, y: Letter)
    requires i <= |row| && j <= |col| && pi <= |row| && pj <= |col| && |pa| == |pb|
    requires ColumnsScore(cfg, pa, pb) <= NwScore(row, col, cfg, pi, pj)
    requires NwScore(row, col, cfg, i, j) >= NwScore(row, col, cfg, pi, pj) + ColumnWeight(cfg, x, y)
    ensures ColumnsScore(cfg, pa + [x], pb + [y]) <= NwScore(row, col, cfg, i, j)
  {
    ColumnsScorePush(cfg, pa, pb, x, y);
  }

  /**
   * A move from cell (i, j) is tight when the cell's reference value is the
   * neighbour's value plus the weight of the column the move pushes, that is
   * when the cell's value can have been computed from that neighbour.
   */
  predicate NwTight(row: seq<Letter>, col: seq<Letter>, cfg: GlobalAlignmentConfig, i: nat, j: nat, m: Move)
    requires i <= |row| && j <= |col| && CanMove(m, i, j)
  {
    var p := StepBack(m, i, j);
    NwScore(row, col, cfg, i, j) == NwScore(row, col, cfg, p.0, p.1) + ColumnWeight(cfg, RowLetter(m, row, i), ColumnLetter(m, col, j))
  }

  /**
   * The move the algorithm is meant to make from cell (i, j) of the reference
   * matrix: the move `mount_best_nw_alignment` makes (to the largest
   * neighbour) whenever it is tight; otherwise back to a neighbour the cell's
   * value was computed from, trying the top-left one first, then the top one,
   * then the left one; along the borders the only neighbour is taken.
   */
  function NwOptimalMove(row: seq<Letter>, col: seq<Letter>, cfg: GlobalAlignmentConfig, i: nat, j: nat): (m: Move)
    requires i <= |row| && j <= |col| && (i > 0 || j > 0)
    ensures CanMove(m, i, j)
  {
    var greedy := if i > 0 && j > 0
      then NeighbourMaxMove(NwScore(row, col, cfg, i - 1, j - 1), NwScore(row, col, cfg, i - 1, j), NwScore(row, col, cfg, i, j - 1))
      else if i > 0 then Up else Left;
    if NwTight(row, col, cfg, i, j, greedy) then greedy
    else if i > 0 && j > 0 && NwScore(row, col, cfg, i, j) == NwScore(row, col, cfg, i - 1, j - 1) + NoGapWeight(cfg, row[i - 1], col[j - 1]) then Diagonal
    else if i > 0 && (j == 0 || NwScore(row, col, cfg, i, j) == NwScore(row, col, cfg, i - 1, j) + cfg.gapWeight) then Up
    else Left
  }

  /**
   * Inside the matrix the corrected move is the one `mount_best_nw_alignment`
   * makes on the reference matrix whenever that one is tight.
   */
  lemma NwOptimalMoveFollowsSource(row: seq<Letter>, col: seq<Letter>, cfg: GlobalAlignmentConfig, i: nat, j: nat)
    requires 0 < i <= |row| && 0 < j <= |col|
    ensures var s := NwMoveAt(NwGrid(row, col, cfg), |col| + 1, i, j);
      NwTight(row, col, cfg, i, j, s) ==> NwOptimalMove(row, col, cfg, i, j) == s
  {
    var g := NwGrid(row, col, cfg);
    assert g[i - 1][j - 1] == NwScore(row, col, cfg, i - 1, j - 1);
    assert g[i - 1][j] == NwScore(row, col, cfg, i - 1, j);
    assert g[i][j - 1] == NwScore(row, col, cfg, i, j - 1);
  }

  /**
   * Over gap-free inputs the corrected move goes back to a neighbour whose
   * value plus the weight of the pushed column is the cell's value.
   */
  lemma NwOptimalMoveSound(row: seq<Letter>, col: seq<Letter>, cfg: GlobalAlignmentConfig, i: nat, j: nat)
    requires NoGap(row) && NoGap(col) && i <= |row| && j <= |col| && (i > 0 || j > 0)
    ensures NwTight(row, col, cfg, i, j, NwOptimalMove(row, col, cfg, i, j))
  {
    var m := NwOptimalMove(row, col, cfg, i, j);
    if i == 0 {
      assert j * cfg.gapWeight == (j - 1) * cfg.gapWeight + cfg.gapWeight;
    } else if j == 0 {
      assert i * cfg.gapWeight == (i - 1) * cfg.gapWeight + cfg.gapWeight;
    } else if m == Diagonal {
      assert row[i - 1] != Gap && col[j - 1] != Gap;
    } else if m == Up {
      assert row[i - 1] != Gap;
    } else {
      assert col[j - 1] != Gap;
    }
  }

  /**
   * The traceback the algorithm is meant to perform: from cell (i, j) of the
   * reference matrix it follows `NwOptimalMove` down to (0, 0).
   */
  function NwOptimalTraceback(row: seq<Letter>, col: seq<Letter>, cfg: GlobalAlignmentConfig, i: nat, j: nat): (r: GlobalAlignmentResult)
    requires i <= |row| && j <= |col|
    ensures |r.alignedRowSeq| == |r.alignedColumnSeq| <= i + j
    decreases i + j
  {
    if i == 0 && j == 0 then GlobalAlignmentResult([], [], 0)
    else
      var m := NwOptimalMove(row, col, cfg, i, j);
      var p := StepBack(m, i, j);
      var a := RowLetter(m, row, i);
      var b := ColumnLetter(m, col, j);
      Extend(NwOptimalTraceback(row, col, cfg, p.0, p.1), a, b, ColumnWeight(cfg, a, b))
  }

  /**
   * Over gap-free inputs the corrected traceback aligns the whole prefixes and
   * reports the column-by-column score of what it returns.
   */
  lemma {:induction false} NwOptimalTracebackAligns(row: seq<Letter>, col: seq<Letter>, cfg: GlobalAlignmentConfig, i: nat, j: nat)
    requires NoGap(row) && NoGap(col) && i <= |row| && j <= |col|
    ensures var r := NwOptimalTraceback(row, col, cfg, i, j);
      IsAlignmentOf(r.alignedRowSeq, r.alignedColumnSeq, row[..i], col[..j]) &&
      r.score == ColumnsScore(cfg, r.alignedRowSeq, r.alignedColumnSeq)
    decreases i + j
  {
    if i == 0 && j == 0 {
      assert row[..0] == [] && col[..0] == [];
    } else {
      var m := NwOptimalMove(row, col, cfg, i, j);
      var p, a, b := StepBack(m, i, j), RowLetter(m, row, i), ColumnLetter(m, col, j);
      var before := NwOptimalTraceback(row, col, cfg, p.0, p.1);
      NwOptimalTracebackAligns(row, col, cfg, p.0, p.1);
      MovePushesLetter(m, row, col, i, j);
      ExtendScore(cfg, before, a, b);
      NoGapColumnsPush(before.alignedRowSeq, before.alignedColumnSeq, a, b);
      LettersStep(before.alignedRowSeq, before.alignedRowSeq + [a], row, 0, p.0, i);
      LettersStep(before.alignedColumnSeq, before.alignedColumnSeq + [b], col, 0, p.1, j);
      assert row[0..i] == row[..i] && row[0..p.0] == row[..p.0];
      assert col[0..j] == col[..j] && col[0..p.1] == col[..p.1];
    }
  }

  /** Over gap-free inputs the score the corrected traceback reports is the reference matrix's value at the start cell. */
  lemma {:induction false} NwOptimalTracebackScore(row: seq<Letter>, col: seq<Letter>, cfg: GlobalAlignmentConfig, i: nat, j: nat)
    requires NoGap(row) && NoGap(col) && i <= |row| && j <= |col|
    ensures NwOptimalTraceback(row, col, cfg, i, j).score == NwScore(row, col, cfg, i, j)
    decreases i + j
  {
    if i > 0 || j > 0 {
      var p := StepBack(NwOptimalMove(row, col, cfg, i, j), i, j);
      NwOptimalTracebackScore(row, col, cfg, p.0, p.1);
      NwOptimalMoveSound(row, col, cfg, i, j);
    }
  }

  /** Hence the corrected traceback returns an optimal global alignment of the two sequences. */
  lemma NwOptimalTracebackOptimal(row: seq<Letter>, col: seq<Letter>, cfg: GlobalAlignmentConfig, a: seq<Letter>, b: seq<Letter>)
    requires NoGap(row) && NoGap(col) && IsAlignmentOf(a, b, row, col)
    ensures var r := NwOptimalTraceback(row, col, cfg, |row|, |col|);
      IsAlignmentOf(r.alignedRowSeq, r.alignedColumnSeq, row, col) && ColumnsScore(cfg, a, b) <= r.score
  {
    assert row[..|row|] == row && col[..|col|] == col;
    NwOptimalTracebackAligns(row, col, cfg, |row|, |col|);
    NwOptimalTracebackScore(row, col, cfg, |row|, |col|);
    NwScoreOptimal(row, col, cfg, |row|, |col|, a, b);
  }

  /**
   * As written, the traceback stops as soon as either index reaches 0, so the
   * letters still ahead on the other sequence are dropped: aligning any
   * non-empty row against the empty column yields the empty alignment.
   */
  lemma NwTracebackStopsEarly(row: seq<Letter>, cfg: GlobalAlignmentConfig)
    requires |row| > 0
    ensures var t := NwTraceback(NwGrid(row, [], cfg), 1, row, [], cfg, |row|, 0);
      t == NwTrace(GlobalAlignmentResult([], [], 0), |row|, 0) && RemoveGaps(t.result.alignedRowSeq) != row
  {
    NwTracebackAtBorder(NwGrid(row, [], cfg), 1, row, [], cfg, |row|, 0);
  }

  /** The corrected traceback keeps the leading letters: against the empty column, a prefix of the row aligns with gaps only. */
  lemma {:induction false} NwOptimalTracebackKeepsLeadingLetters(row: seq<Letter>, cfg: GlobalAlignmentConfig, i: nat)
    requires i <= |row|
    ensures var r := NwOptimalTraceback(row, [], cfg, i, 0);
      r.alignedRowSeq == row[..i] && r.alignedColumnSeq == seq(i, _ => Gap) && r.score == i * cfg.gapWeight
  {
    if i > 0 {
      NwOptimalTracebackKeepsLeadingLetters(row, cfg, i - 1);
      assert NwOptimalMove(row, [], cfg, i, 0) == Up;
      assert row[..i] == row[..i - 1] + [row[i - 1]];
      assert seq(i, _ => Gap) == seq(i - 1, _ => Gap) + [Gap];
      assert i * cfg.gapWeight == (i - 1) * cfg.gapWeight + cfg.gapWeight;
    }
  }

  /**
   * As written, the traceback moves to the largest neighbour, preferring the
   * diagonal on ties, instead of to the neighbour the cell's value came from:
   * with a mismatch costing more than two gaps, two different letters come
   * out as a mismatch although two gaps score more (for "A" against "B" with
   * match 1, mismatch -10 and gap -1: -10 where the optimum is -2).
   */
  lemma NwTieBreakSuboptimal(a: Letter, b: Letter, cfg: GlobalAlignmentConfig)
    requires a != Gap && b != Gap && a != b
    requires cfg.gapWeight <= 0 && cfg.mismatchWeight < 2 * cfg.gapWeight
    ensures var r := NwTraceback(NwGrid([a], [b], cfg), 2, [a], [b], cfg, 1, 1).result;
      r == GlobalAlignmentResult([a], [b], cfg.mismatchWeight) && r.score < NwScore([a], [b], cfg, 1, 1) == 2 * cfg.gapWeight
  {
    var g := NwGrid([a], [b], cfg);
    assert NwScore([a], [b], cfg, 1, 1) == 2 * cfg.gapWeight;
    assert NwMoveAt(g, 2, 1, 1) == Diagonal;
    NwTracebackAtBorder(g, 2, [a], [b], cfg, 0, 0);
  }

  /** The corrected traceback reaches the optimum on the same inputs: two gaps. */
  lemma NwOptimalTracebackBreaksTie(a: Letter, b: Letter, cfg: GlobalAlignmentConfig)
    requires a != Gap && b != Gap && a != b
    requires cfg.mismatchWeight < 2 * cfg.gapWeight
    ensures NwOptimalTraceback([a], [b], cfg, 1, 1) == GlobalAlignmentResult([Gap, a], [b, Gap], 2 * cfg.gapWeight)
  {
    assert NwScore([a], [b], cfg, 1, 1) == 2 * cfg.gapWeight;
    assert NwOptimalMove([a], [b], cfg, 1, 1) == Up;
    assert NwOptimalMove([a], [b], cfg, 0, 1) == Left;
    assert NwOptimalTraceback([a], [b], cfg, 0, 1) == GlobalAlignmentResult([Gap], [b], cfg.gapWeight);
    PairOfSingletons(Gap, a);
    PairOfSingletons(b, Gap);
  }

  /**
   * One step of the corrected traceback with its move known: from (i, j) it
   * steps back to (pi, pj) and pushes the column a over b of weight w.
   */
  lemma NwOptimalTracebackPush(row: seq<Letter>, col: seq<Letter>, cfg: GlobalAlignmentConfig, i: nat, j: nat, m: Move, pi: nat, pj: nat, a: Letter, b: Letter, w: int)
    requires i <= |row| && j <= |col| && (i > 0 || j > 0)
    requires NwOptimalMove(row, col, cfg, i, j) == m && StepBack(m, i, j) == (pi, pj)
    requires RowLetter(m, row, i) == a && ColumnLetter(m, col, j) == b && ColumnWeight(cfg, a, b) == w
    ensures NwOptimalTraceback(row, col, cfg, i, j) == Extend(NwOptimalTraceback(row, col, cfg, pi, pj), a, b, w)
  {
  }

  /** The same for the code's traceback over a matrix `g`. */
  lemma NwTracebackPush(g: seq<seq<int>>, w: nat, row: seq<Letter>, col: seq<Letter>, cfg: GlobalAlignmentConfig, i: nat, j: nat, m: Move, pi: nat, pj: nat, a: Letter, b: Letter, weight: int)
    requires Rect(g, w) && 0 < i < |g| && 0 < j < w
    requires NwMoveAt(g, w, i, j) == m && StepBack(m, i, j) == (pi, pj)
    requires RowLetter(m, row, i) == a && ColumnLetter(m, col, j) == b && ColumnWeight(cfg, a, b) == weight
    ensures NwTraceback(g, w, row, col, cfg, i, j).result == Extend(NwTraceback(g, w, row, col, cfg, pi, pj).result, a, b, weight)
  {
  }

  /** The weights of the first unit test of `needleman_wunsch`: a match earns 1, a mismatch costs 1, a gap costs 2. */
  const WhatWhyConfig: GlobalAlignmentConfig := GlobalAlignmentConfig(1, -1, -2)

  /** The letters of that test, "WHAT" against "WHY": five distinct letters, none of them the gap. */
  predicate WhatWhyLetters(w: Letter, h: Letter, a: Letter, t: Letter, y: Letter) {
    w != h && w != a && w != t && w != y && h != a && h != t && h != y && a != t && a != y && t != y &&
    w != Gap && h != Gap && a != Gap && t != Gap && y != Gap
  }

  /** Rows 1 and 2 of the reference matrix of that test. */
  lemma NwWhatWhyUpperRows(w: Letter, h: Letter, a: Letter, t: Letter, y: Letter)
    requires WhatWhyLetters(w, h, a, t, y)
    ensures var row, col, cfg := [w, h, a, t], [w, h, y], WhatWhyConfig;
      NwScore(row, col, cfg, 1, 1) == 1 && NwScore(row, col, cfg, 1, 2) == -1 && NwScore(row, col, cfg, 1, 3) == -3 &&
      NwScore(row, col, cfg, 2, 1) == -1 && NwScore(row, col, cfg, 2, 2) == 2 && NwScore(row, col, cfg, 2, 3) == 0
  {
    var row, col, cfg := [w, h, a, t], [w, h, y], WhatWhyConfig;
    assert NwScore(row, col, cfg, 0, 1) == -2 && NwScore(row, col, cfg, 0, 2) == -4 && NwScore(row, col, cfg, 0, 3) == -6;
    assert NwScore(row, col, cfg, 1, 0) == -2 && NwScore(row, col, cfg, 2, 0) == -4;
    assert NwScore(row, col, cfg, 1, 1) == 1;
    assert NwScore(row, col, cfg, 1, 2) == -1;
    assert NwScore(row, col, cfg, 1, 3) == -3;
    assert NwScore(row, col, cfg, 2, 1) == -1;
    assert NwScore(row, col, cfg, 2, 2) == 2;
  }

  /** Rows 3 and 4 of the same matrix. */
  lemma NwWhatWhyLowerRows(w: Letter, h: Letter, a: Letter, t: Letter, y: Letter)
    requires WhatWhyLetters(w, h, a, t, y)
    ensures var row, col, cfg := [w, h, a, t], [w, h, y], WhatWhyConfig;
      NwScore(row, col, cfg, 3, 1) == -3 && NwScore(row, col, cfg, 3, 2) == 0 && NwScore(row, col, cfg, 3, 3) == 1 &&
      NwScore(row, col, cfg, 4, 2) == -2 && NwScore(row, col, cfg, 4, 3) == -1
  {
    var row, col, cfg := [w, h, a, t], [w, h, y], WhatWhyConfig;
    NwWhatWhyUpperRows(w, h, a, t, y);
    assert NwScore(row, col, cfg, 3, 0) == -6 && NwScore(row, col, cfg, 4, 0) == -8;
    assert NwScore(row, col, cfg, 3, 1) == -3;
    assert NwScore(row, col, cfg, 3, 2) == 0;
    assert NwScore(row, col, cfg, 3, 3) == 1;
    assert NwScore(row, col, cfg, 4, 1) == -5;
    assert NwScore(row, col, cfg, 4, 2) == -2;
  }

  /** The corrected moves along the expected alignment of that test: the largest neighbour, tight at every step. */
  lemma NwWhatWhyMoves(w: Letter, h: Letter, a: Letter, t: Letter, y: Letter)
    requires WhatWhyLetters(w, h, a, t, y)
    ensures var row, col, cfg := [w, h, a, t], [w, h, y], WhatWhyConfig;
      NwOptimalMove(row, col, cfg, 1, 1) == Diagonal && NwOptimalMove(row, col, cfg, 2, 2) == Diagonal &&
      NwOptimalMove(row, col, cfg, 3, 3) == Diagonal && NwOptimalMove(row, col, cfg, 4, 3) == Up
  {
    var row, col, cfg := [w, h, a, t], [w, h, y], WhatWhyConfig;
    NwWhatWhyUpperRows(w, h, a, t, y);
    NwWhatWhyLowerRows(w, h, a, t, y);
    assert NwScore(row, col, cfg, 0, 0) == 0 && NwScore(row, col, cfg, 0, 1) == -2 && NwScore(row, col, cfg, 1, 0) == -2;
  }

  /**
   * On that test the corrected traceback returns the alignment the test
   * expects, "WHAT" over "WHY-" with score -1.
   */
  lemma NwOptimalTracebackWhatWhy(w: Letter, h: Letter, a: Letter, t: Letter, y: Letter)
    requires WhatWhyLetters(w, h, a, t, y)
    ensures NwOptimalTraceback([w, h, a, t], [w, h, y], WhatWhyConfig, 4, 3) == GlobalAlignmentResult([w, h, a, t], [w, h, y, Gap], -1)
  {
    var row, col, cfg := [w, h, a, t], [w, h, y], WhatWhyConfig;
    NwWhatWhyMoves(w, h, a, t, y);
    var t0 := NwOptimalTraceback(row, col, cfg, 0, 0);
    var t1 := NwOptimalTraceback(row, col, cfg, 1, 1);
    var t2 := NwOptimalTraceback(row, col, cfg, 2, 2);
    var t3 := NwOptimalTraceback(row, col, cfg, 3, 3);
    assert t1 == Extend(t0, w, w, 1);
    assert t2 == Extend(t1, h, h, 1);
    assert t3 == Extend(t2, a, y, -1);
    assert NwOptimalTraceback(row, col, cfg, 4, 3) == Extend(t3, t, Gap, -2);
    assert [] + [w] == [w];
  }

  /** The moves `mount_best_nw_alignment` makes on that test's matrix, along the path it takes. */
  lemma NwWhatWhySourceMoves(w: Letter, h: Letter, a: Letter, t: Letter, y: Letter)
    requires WhatWhyLetters(w, h, a, t, y)
    ensures var grid := NwGrid([w, h, a, t], [w, h, y], WhatWhyConfig);
      NwMoveAt(grid, 4, 4, 3) == Up && NwMoveAt(grid, 4, 3, 3) == Diagonal &&
      NwMoveAt(grid, 4, 2, 2) == Diagonal && NwMoveAt(grid, 4, 1, 1) == Diagonal
  {
    var row, col, cfg := [w, h, a, t], [w, h, y], WhatWhyConfig;
    var grid := NwGrid(row, col, cfg);
    NwWhatWhyUpperRows(w, h, a, t, y);
    NwWhatWhyLowerRows(w, h, a, t, y);
    assert grid[0][0] == 0 && grid[0][1] == -2 && grid[1][0] == -2 && grid[1][1] == 1 &&
      grid[1][2] == -1 && grid[2][1] == -1 && grid[2][2] == 2 && grid[2][3] == 0 &&
      grid[3][2] == 0 && grid[3][3] == 1 && grid[4][2] == -2;
  }

  /**
   * On that test the traceback of the code, over the matrix it fills, also
   * returns the alignment the test expects, "WHAT" over "WHY-" with score -1.
   */
  lemma NwTracebackWhatWhyAsWritten(w: Letter, h: Letter, a: Letter, t: Letter, y: Letter)
    requires WhatWhyLetters(w, h, a, t, y)
    ensures NwTraceback(NwGrid([w, h, a, t], [w, h, y], WhatWhyConfig), 4, [w, h, a, t], [w, h, y], WhatWhyConfig, 4, 3).result ==
      GlobalAlignmentResult([w, h, a, t], [w, h, y, Gap], -1)
  {
    var row, col, cfg := [w, h, a, t], [w, h, y], WhatWhyConfig;
    var grid := NwGrid(row, col, cfg);
    NwWhatWhySourceMoves(w, h, a, t, y);
    var t0 := NwTraceback(grid, 4, row, col, cfg, 0, 0).result;
    var t1 := NwTraceback(grid, 4, row, col, cfg, 1, 1).result;
    var t2 := NwTraceback(grid, 4, row, col, cfg, 2, 2).result;
    var t3 := NwTraceback(grid, 4, row, col, cfg, 3, 3).result;
    assert t1 == Extend(t0, w, w, 1);
    assert t2 == Extend(t1, h, h, 1);
    assert t3 == Extend(t2, a, y, -1);
    assert NwTraceback(grid, 4, row, col, cfg, 4, 3).result == Extend(t3, t, Gap, -2);
    assert [] + [w] == [w];
  }

  /** The weights of the second unit test of `needleman_wunsch`: a match earns 1, a mismatch or a gap costs 1. */
  const GattacaConfig: GlobalAlignmentConfig := GlobalAlignmentConfig(1, -1, -1)

  /** The letters of that test, "GCATGCG" against "GATTACA": four distinct letters, none of them the gap. */
  predicate GattacaLetters(g: Letter, c: Letter, a: Letter, t: Letter) {
    g != c && g != a && g != t && c != a && c != t && a != t && g != Gap && c != Gap && a != Gap && t != Gap
  }

  /** Columns 0 to 3 of row 1 of the reference matrix of that test. */
  lemma NwGattacaRow1Left(g: Letter, c: Letter, a: Letter, t: Letter)
    requires GattacaLetters(g, c, a, t)
    ensures var row, col, cfg := [g, c, a, t, g, c, g], [g, a, t, t, a, c, a], GattacaConfig;
      NwScore(row, col, cfg, 1, 0) == -1 && NwScore(row, col, cfg, 1, 1) == 1 && NwScore(row, col, cfg, 1, 2) == 0 && NwScore(row, col, cfg, 1, 3) == -1
  {
    var row, col, cfg := [g, c, a, t, g, c, g], [g, a, t, t, a, c, a], GattacaConfig;
    assert row[0] == g && col[0] == g && col[1] == a && col[2] == t && cfg.gapWeight == -1;
    assert NwScore(row, col, cfg, 1, 0) == -1;
    assert NwScore(row, col, cfg, 1, 1) == 1;
    assert NwScore(row, col, cfg, 1, 2) == 0;
    assert NwScore(row, col, cfg, 1, 3) == -1;
  }

  /** Columns 4 to 7 of row 1 of the reference matrix of that test. */
  lemma NwGattacaRow1Right(g: Letter, c: Letter, a: Letter, t: Letter)
    requires GattacaLetters(g, c, a, t)
    ensures var row, col, cfg := [g, c, a, t, g, c, g], [g, a, t, t, a, c, a], GattacaConfig;
      NwScore(row, col, cfg, 1, 4) == -2 && NwScore(row, col, cfg, 1, 5) == -3 && NwScore(row, col, cfg, 1, 6) == -4 && NwScore(row, col, cfg, 1, 7) == -5
  {
    var row, col, cfg := [g, c, a, t, g, c, g], [g, a, t, t, a, c, a], GattacaConfig;
    NwGattacaRow1Left(g, c, a, t);
    assert row[0] == g && col[3] == t && col[4] == a && col[5] == c && col[6] == a && cfg.gapWeight == -1;
    assert NwScore(row, col, cfg, 1, 4) == -2;
    assert NwScore(row, col, cfg, 1, 5) == -3;
    assert NwScore(row, col, cfg, 1, 6) == -4;
    assert NwScore(row, col, cfg, 1, 7) == -5;
  }

  /** Columns 0 to 3 of row 2 of the reference matrix of that test. */
  lemma NwGattacaRow2Left(g: Letter, c: Letter, a: Letter, t: Letter)
    requires GattacaLetters(g, c, a, t)
    ensures var row, col, cfg := [g, c, a, t, g, c, g], [g, a, t, t, a, c, a], GattacaConfig;
      NwScore(row, col, cfg, 2, 0) == -2 && NwScore(row, col, cfg, 2, 1) == 0 && NwScore(row, col, cfg, 2, 2) == 0 && NwScore(row, col, cfg, 2, 3) == -1
  {
    var row, col, cfg := [g, c, a, t, g, c, g], [g, a, t, t, a, c, a], GattacaConfig;
    NwGattacaRow1Left(g, c, a, t);
    assert row[1] == c && col[0] == g && col[1] == a && col[2] == t && cfg.gapWeight == -1;
    assert NwScore(row, col, cfg, 2, 0) == -2;
    assert NwScore(row, col, cfg, 2, 1) == 0;
    assert NwScore(row, col, cfg, 2, 2) == 0;
    assert NwScore(row, col, cfg, 2, 3) == -1;
  }

  /** Columns 4 to 7 of row 2 of the reference matrix of that test. */
  lemma NwGattacaRow2Right(g: Letter, c: Letter, a: Letter, t: Letter)
    requires GattacaLetters(g, c, a, t)
    ensures var row, col, cfg := [g, c, a, t, g, c, g], [g, a, t, t, a, c, a], GattacaConfig;
      NwScore(row, col, cfg, 2, 4) == -2 && NwScore(row, col, cfg, 2, 5) == -3 && NwScore(row, col, cfg, 2, 6) == -2 && NwScore(row, col, cfg, 2, 7) == -3
  {
    var row, col, cfg := [g, c, a, t, g, c, g], [g, a, t, t, a, c, a], GattacaConfig;
    NwGattacaRow2Left(g, c, a, t);
    NwGattacaRow1Left(g, c, a, t);
    NwGattacaRow1Right(g, c, a, t);
    assert row[1] == c && col[3] == t && col[4] == a && col[5] == c && col[6] == a && cfg.gapWeight == -1;
    assert NwScore(row, col, cfg, 2, 4) == -2;
    assert NwScore(row, col, cfg, 2, 5) == -3;
    assert NwScore(row, col, cfg, 2, 6) == -2;
    assert NwScore(row, col, cfg, 2, 7) == -3;
  }

  /** Columns 0 to 3 of row 3 of the reference matrix of that test. */
  lemma NwGattacaRow3Left(g: Letter, c: Letter, a: Letter, t: Letter)
    requires GattacaLetters(g, c, a, t)
    ensures var row, col, cfg := [g, c, a, t, g, c, g], [g, a, t, t, a, c, a], GattacaConfig;
      NwScore(row, col, cfg, 3, 0) == -3 && NwScore(row, col, cfg, 3, 1) == -1 && NwScore(row, col, cfg, 3, 2) == 1 && NwScore(row, col, cfg, 3, 3) == 0
  {
    var row, col, cfg := [g, c, a, t, g, c, g], [g, a, t, t, a, c, a], GattacaConfig;
    NwGattacaRow2Left(g, c, a, t);
    assert row[2] == a && col[0] == g && col[1] == a && col[2] == t && cfg.gapWeight == -1;
    assert NwScore(row, col, cfg, 3, 0) == -3;
    assert NwScore(row, col, cfg, 3, 1) == -1;
    assert NwScore(row, col, cfg, 3, 2) == 1;
    assert NwScore(row, col, cfg, 3, 3) == 0;
  }

  /** Columns 4 to 7 of row 3 of the reference matrix of that test. */
  lemma NwGattacaRow3Right(g: Letter, c: Letter, a: Letter, t: Letter)
    requires GattacaLetters(g, c, a, t)
    ensures var row, col, cfg := [g, c, a, t, g, c, g], [g, a, t, t, a, c, a], GattacaConfig;
      NwScore(row, col, cfg, 3, 4) == -1 && NwScore(row, col, cfg, 3, 5) == -1 && NwScore(row, col, cfg, 3, 6) == -2 && NwScore(row, col, cfg, 3, 7) == -1
  {
    var row, col, cfg := [g, c, a, t, g, c, g], [g, a, t, t, a, c, a], GattacaConfig;
    NwGattacaRow3Left(g, c, a, t);
    NwGattacaRow2Left(g, c, a, t);
    NwGattacaRow2Right(g, c, a, t);
    assert row[2] == a && col[3] == t && col[4] == a && col[5] == c && col[6] == a && cfg.gapWeight == -1;
    assert NwScore(row, col, cfg, 3, 4) == -1;
    assert NwScore(row, col, cfg, 3, 5) == -1;
    assert NwScore(row, col, cfg, 3, 6) == -2;
    assert NwScore(row, col, cfg, 3, 7) == -1;
  }

  /** Columns 0 to 3 of row 4 of the reference matrix of that test. */
  lemma NwGattacaRow4Left(g: Letter, c: Letter, a: Letter, t: Letter)
    requires GattacaLetters(g, c, a, t)
    ensures var row, col, cfg := [g, c, a, t, g, c, g], [g, a, t, t, a, c, a], GattacaConfig;
      NwScore(row, col, cfg, 4, 0) == -4 && NwScore(row, col, cfg, 4, 1) == -2 && NwScore(row, col, cfg, 4, 2) == 0 && NwScore(row, col, cfg, 4, 3) == 2
  {
    var row, col, cfg := [g, c, a, t, g, c, g], [g, a, t, t, a, c, a], GattacaConfig;
    NwGattacaRow3Left(g, c, a, t);
    assert row[3] == t && col[0] == g && col[1] == a && col[2] == t && cfg.gapWeight == -1;
    assert NwScore(row, col, cfg, 4, 0) == -4;
    assert NwScore(row, col, cfg, 4, 1) == -2;
    assert NwScore(row, col, cfg, 4, 2) == 0;
    assert NwScore(row, col, cfg, 4, 3) == 2;
  }

  /** Columns 4 to 7 of row 4 of the reference matrix of that test. */
  lemma NwGattacaRow4Right(g: Letter, c: Letter, a: Letter, t: Letter)
    requires GattacaLetters(g, c, a, t)
    ensures var row, col, cfg := [g, c, a, t, g, c, g], [g, a, t, t, a, c, a], GattacaConfig;
      NwScore(row, col, cfg, 4, 4) == 1 && NwScore(row, col, cfg, 4, 5) == 0 && NwScore(row, col, cfg, 4, 6) == -1 && NwScore(row, col, cfg, 4, 7) == -2
  {
    var row, col, cfg := [g, c, a, t, g, c, g], [g, a, t, t, a, c, a], GattacaConfig;
    NwGattacaRow4Left(g, c, a, t);
    NwGattacaRow3Left(g, c, a, t);
    NwGattacaRow3Right(g, c, a, t);
    assert row[3] == t && col[3] == t && col[4] == a && col[5] == c && col[6] == a && cfg.gapWeight == -1;
    assert NwScore(row, col, cfg, 4, 4) == 1;
    assert NwScore(row, col, cfg, 4, 5) == 0;
    assert NwScore(row, col, cfg, 4, 6) == -1;
    assert NwScore(row, col, cfg, 4, 7) == -2;
  }

  /** Columns 0 to 3 of row 5 of the reference matrix of that test. */
  lemma NwGattacaRow5Left(g: Letter, c: Letter, a: Letter, t: Letter)
    requires GattacaLetters(g, c, a, t)
    ensures var row, col, cfg := [g, c, a, t, g, c, g], [g, a, t, t, a, c, a], GattacaConfig;
      NwScore(row, col, cfg, 5, 0) == -5 && NwScore(row, col, cfg, 5, 1) == -3 && NwScore(row, col, cfg, 5, 2) == -1 && NwScore(row, col, cfg, 5, 3) == 1
  {
    var row, col, cfg := [g, c, a, t, g, c, g], [g, a, t, t, a, c, a], GattacaConfig;
    NwGattacaRow4Left(g, c, a, t);
    assert row[4] == g && col[0] == g && col[1] == a && col[2] == t && cfg.gapWeight == -1;
    assert NwScore(row, col, cfg, 5, 0) == -5;
    assert NwScore(row, col, cfg, 5, 1) == -3;
    assert NwScore(row, col, cfg, 5, 2) == -1;
    assert NwScore(row, col, cfg, 5, 3) == 1;
  }

  /** Columns 4 to 7 of row 5 of the reference matrix of that test. */
  lemma NwGattacaRow5Right(g: Letter, c: Letter, a: Letter, t: Letter)
    requires GattacaLetters(g, c, a, t)
    ensures var row, col, cfg := [g, c, a, t, g, c, g], [g, a, t, t, a, c, a], GattacaConfig;
      NwScore(row, col, cfg, 5, 4) == 1 && NwScore(row, col, cfg, 5, 5) == 0 && NwScore(row, col, cfg, 5, 6) == -1 && NwScore(row, col, cfg, 5, 7) == -2
  {
    var row, col, cfg := [g, c, a, t, g, c, g], [g, a, t, t, a, c, a], GattacaConfig;
    NwGattacaRow5Left(g, c, a, t);
    NwGattacaRow4Left(g, c, a, t);
    NwGattacaRow4Right(g, c, a, t);
    assert row[4] == g && col[3] == t && col[4] == a && col[5] == c && col[6] == a && cfg.gapWeight == -1;
    assert NwScore(row, col, cfg, 5, 4) == 1;
    assert NwScore(row, col, cfg, 5, 5) == 0;
    assert NwScore(row, col, cfg, 5, 6) == -1;
    assert NwScore(row, col, cfg, 5, 7) == -2;
  }

  /** Columns 0 to 3 of row 6 of the reference matrix of that test. */
  lemma NwGattacaRow6Left(g: Letter, c: Letter, a: Letter, t: Letter)
    requires GattacaLetters(g, c, a, t)
    ensures var row, col, cfg := [g, c, a, t, g, c, g], [g, a, t, t, a, c, a], GattacaConfig;
      NwScore(row, col, cfg, 6, 0) == -6 && NwScore(row, col, cfg, 6, 1) == -4 && NwScore(row, col, cfg, 6, 2) == -2 && NwScore(row, col, cfg, 6, 3) == 0
  {
    var row, col, cfg := [g, c, a, t, g, c, g], [g, a, t, t, a, c, a], GattacaConfig;
    NwGattacaRow5Left(g, c, a, t);
    assert row[5] == c && col[0] == g && col[1] == a && col[2] == t && cfg.gapWeight == -1;
    assert NwScore(row, col, cfg, 6, 0) == -6;
    assert NwScore(row, col, cfg, 6, 1) == -4;
    assert NwScore(row, col, cfg, 6, 2) == -2;
    assert NwScore(row, col, cfg, 6, 3) == 0;
  }

  /** Columns 4 to 7 of row 6 of the reference matrix of that test. */
  lemma NwGattacaRow6Right(g: Letter, c: Letter, a: Letter, t: Letter)
    requires GattacaLetters(g, c, a, t)
    ensures var row, col, cfg := [g, c, a, t, g, c, g], [g, a, t, t, a, c, a], GattacaConfig;
      NwScore(row, col, cfg, 6, 4) == 0 && NwScore(row, col, cfg, 6, 5) == 0 && NwScore(row, col, cfg, 6, 6) == 1 && NwScore(row, col, cfg, 6, 7) == 0
  {
    var row, col, cfg := [g, c, a, t, g, c, g], [g, a, t, t, a, c, a], GattacaConfig;
    NwGattacaRow6Left(g, c, a, t);
    NwGattacaRow5Left(g, c, a, t);
    NwGattacaRow5Right(g, c, a, t);
    assert row[5] == c && col[3] == t && col[4] == a && col[5] == c && col[6] == a && cfg.gapWeight == -1;
    assert NwScore(row, col, cfg, 6, 4) == 0;
    assert NwScore(row, col, cfg, 6, 5) == 0;
    assert NwScore(row, col, cfg, 6, 6) == 1;
    assert NwScore(row, col, cfg, 6, 7) == 0;
  }

  /** Columns 0 to 3 of row 7 of the reference matrix of that test. */
  lemma NwGattacaRow7Left(g: Letter, c: Letter, a: Letter, t: Letter)
    requires GattacaLetters(g, c, a, t)
    ensures var row, col, cfg := [g, c, a, t, g, c, g], [g, a, t, t, a, c, a], GattacaConfig;
      NwScore(row, col, cfg, 7, 0) == -7 && NwScore(row, col, cfg, 7, 1) == -5 && NwScore(row, col, cfg, 7, 2) == -3 && NwScore(row, col, cfg, 7, 3) == -1
  {
    var row, col, cfg := [g, c, a, t, g, c, g], [g, a, t, t, a, c, a], GattacaConfig;
    NwGattacaRow6Left(g, c, a, t);
    assert row[6] == g && col[0] == g && col[1] == a && col[2] == t && cfg.gapWeight == -1;
    assert NwScore(row, col, cfg, 7, 0) == -7;
    assert NwScore(row, col, cfg, 7, 1) == -5;
    assert NwScore(row, col, cfg, 7, 2) == -3;
    assert NwScore(row, col, cfg, 7, 3) == -1;
  }

  /** Columns 4 to 7 of row 7 of the reference matrix of that test. */
  lemma NwGattacaRow7Right(g: Letter, c: Letter, a: Letter, t: Letter)
    requires GattacaLetters(g, c, a, t)
    ensures var row, col, cfg := [g, c, a, t, g, c, g], [g, a, t, t, a, c, a], GattacaConfig;
      NwScore(row, col, cfg, 7, 4) == -1 && NwScore(row, col, cfg, 7, 5) == -1 && NwScore(row, col, cfg, 7, 6) == 0 && NwScore(row, col, cfg, 7, 7) == 0
  {
    var row, col, cfg := [g, c, a, t, g, c, g], [g, a, t, t, a, c, a], GattacaConfig;
    NwGattacaRow7Left(g, c, a, t);
    NwGattacaRow6Left(g, c, a, t);
    NwGattacaRow6Right(g, c, a, t);
    assert row[6] == g && col[3] == t && col[4] == a && col[5] == c && col[6] == a && cfg.gapWeight == -1;
    assert NwScore(row, col, cfg, 7, 4) == -1;
    assert NwScore(row, col, cfg, 7, 5) == -1;
    assert NwScore(row, col, cfg, 7, 6) == 0;
    assert NwScore(row, col, cfg, 7, 7) == 0;
  }

  /** At cell (1, 1) of that test's matrix the corrected move is the same, and it is tight. */
  lemma NwGattacaMoveAt11(g: Letter, c: Letter, a: Letter, t: Letter)
    requires GattacaLetters(g, c, a, t)
    ensures NwOptimalMove([g, c, a, t, g, c, g], [g, a, t, t, a, c, a], GattacaConfig, 1, 1) == Diagonal
  {
    NwGattacaRow1Left(g, c, a, t);
  }

  /** From cell (1, 1) of that test's matrix the corrected traceback pushes the same column. */
  lemma NwOptimalTracebackGattacaAt11(g: Letter, c: Letter, a: Letter, t: Letter)
    requires GattacaLetters(g, c, a, t)
    ensures var row, col := [g, c, a, t, g, c, g], [g, a, t, t, a, c, a];
      NwOptimalTraceback(row, col, GattacaConfig, 1, 1) == Extend(NwOptimalTraceback(row, col, GattacaConfig, 0, 0), g, g, 1)
  {
    NwGattacaRow1Left(g, c, a, t);
    NwGattacaRow1Right(g, c, a, t);
    var row, col, cfg := [g, c, a, t, g, c, g], [g, a, t, t, a, c, a], GattacaConfig;
    NwGattacaMoveAt11(g, c, a, t);
    NwOptimalTracebackPush(row, col, cfg, 1, 1, Diagonal, 0, 0, g, g, 1);
  }

  /** At cell (2, 1) of that test's matrix the corrected move is the same, and it is tight. */
  lemma NwGattacaMoveAt21(g: Letter, c: Letter, a: Letter, t: Letter)
    requires GattacaLetters(g, c, a, t)
    ensures NwOptimalMove([g, c, a, t, g, c, g], [g, a, t, t, a, c, a], GattacaConfig, 2, 1) == Up
  {
    NwGattacaRow1Left(g, c, a, t);
    NwGattacaRow2Left(g, c, a, t);
  }

  /** From cell (2, 1) of that test's matrix the corrected traceback pushes the same column. */
  lemma NwOptimalTracebackGattacaAt21(g: Letter, c: Letter, a: Letter, t: Letter)
    requires GattacaLetters(g, c, a, t)
    ensures var row, col := [g, c, a, t, g, c, g], [g, a, t, t, a, c, a];
      NwOptimalTraceback(row, col, GattacaConfig, 2, 1) == Extend(NwOptimalTraceback(row, col, GattacaConfig, 1, 1), c, Gap, -1)
  {
    NwGattacaRow2Left(g, c, a, t);
    NwGattacaRow2Right(g, c, a, t);
    NwGattacaRow1Left(g, c, a, t);
    NwGattacaRow1Right(g, c, a, t);
    var row, col, cfg := [g, c, a, t, g, c, g], [g, a, t, t, a, c, a], GattacaConfig;
    NwGattacaMoveAt21(g, c, a, t);
    NwOptimalTracebackPush(row, col, cfg, 2, 1, Up, 1, 1, c, Gap, -1);
  }

  /** At cell (3, 2) of that test's matrix the corrected move is the same, and it is tight. */
  lemma NwGattacaMoveAt32(g: Letter, c: Letter, a: Letter, t: Letter)
    requires GattacaLetters(g, c, a, t)
    ensures NwOptimalMove([g, c, a, t, g, c, g], [g, a, t, t, a, c, a], GattacaConfig, 3, 2) == Diagonal
  {
    NwGattacaRow2Left(g, c, a, t);
    NwGattacaRow3Left(g, c, a, t);
  }

  /** From cell (3, 2) of that test's matrix the corrected traceback pushes the same column. */
  lemma NwOptimalTracebackGattacaAt32(g: Letter, c: Letter, a: Letter, t: Letter)
    requires GattacaLetters(g, c, a, t)
    ensures var row, col := [g, c, a, t, g, c, g], [g, a, t, t, a, c, a];
      NwOptimalTraceback(row, col, GattacaConfig, 3, 2) == Extend(NwOptimalTraceback(row, col, GattacaConfig, 2, 1), a, a, 1)
  {
    NwGattacaRow3Left(g, c, a, t);
    NwGattacaRow3Right(g, c, a, t);
    NwGattacaRow2Left(g, c, a, t);
    NwGattacaRow2Right(g, c, a, t);
    NwGattacaRow1Left(g, c, a, t);
    NwGattacaRow1Right(g, c, a, t);
    var row, col, cfg := [g, c, a, t, g, c, g], [g, a, t, t, a, c, a], GattacaConfig;
    NwGattacaMoveAt32(g, c, a, t);
    NwOptimalTracebackPush(row, col, cfg, 3, 2, Diagonal, 2, 1, a, a, 1);
  }

  /** At cell (4, 3) of that test's matrix the corrected move is the same, and it is tight. */
  lemma NwGattacaMoveAt43(g: Letter, c: Letter, a: Letter, t: Letter)
    requires GattacaLetters(g, c, a, t)
    ensures NwOptimalMove([g, c, a, t, g, c, g], [g, a, t, t, a, c, a], GattacaConfig, 4, 3) == Diagonal
  {
    NwGattacaRow3Left(g, c, a, t);
    NwGattacaRow4Left(g, c, a, t);
  }

  /** From cell (4, 3) of that test's matrix the corrected traceback pushes the same column. */
  lemma NwOptimalTracebackGattacaAt43(g: Letter, c: Letter, a: Letter, t: Letter)
    requires GattacaLetters(g, c, a, t)
    ensures var row, col := [g, c, a, t, g, c, g], [g, a, t, t, a, c, a];
      NwOptimalTraceback(row, col, GattacaConfig, 4, 3) == Extend(NwOptimalTraceback(row, col, GattacaConfig, 3, 2), t, t, 1)
  {
    NwGattacaRow4Left(g, c, a, t);
    NwGattacaRow4Right(g, c, a, t);
    NwGattacaRow3Left(g, c, a, t);
    NwGattacaRow3Right(g, c, a, t);
    NwGattacaRow2Left(g, c, a, t);
    NwGattacaRow2Right(g, c, a, t);
    NwGattacaRow1Left(g, c, a, t);
    NwGattacaRow1Right(g, c, a, t);
    var row, col, cfg := [g, c, a, t, g, c, g], [g, a, t, t, a, c, a], GattacaConfig;
    NwGattacaMoveAt43(g, c, a, t);
    NwOptimalTracebackPush(row, col, cfg, 4, 3, Diagonal, 3, 2, t, t, 1);
  }

  /** At cell (4, 4) of that test's matrix the corrected move is the same, and it is tight. */
  lemma NwGattacaMoveAt44(g: Letter, c: Letter, a: Letter, t: Letter)
    requires GattacaLetters(g, c, a, t)
    ensures NwOptimalMove([g, c, a, t, g, c, g], [g, a, t, t, a, c, a], GattacaConfig, 4, 4) == Left
  {
    NwGattacaRow3Left(g, c, a, t);
    NwGattacaRow3Right(g, c, a, t);
    NwGattacaRow4Left(g, c, a, t);
    NwGattacaRow4Right(g, c, a, t);
  }

  /** From cell (4, 4) of that test's matrix the corrected traceback pushes the same column. */
  lemma NwOptimalTracebackGattacaAt44(g: Letter, c: Letter, a: Letter, t: Letter)
    requires GattacaLetters(g, c, a, t)
    ensures var row, col := [g, c, a, t, g, c, g], [g, a, t, t, a, c, a];
      NwOptimalTraceback(row, col, GattacaConfig, 4, 4) == Extend(NwOptimalTraceback(row, col, GattacaConfig, 4, 3), Gap, t, -1)
  {
    NwGattacaRow4Left(g, c, a, t);
    NwGattacaRow4Right(g, c, a, t);
    NwGattacaRow3Left(g, c, a, t);
    NwGattacaRow3Right(g, c, a, t);
    NwGattacaRow2Left(g, c, a, t);
    NwGattacaRow2Right(g, c, a, t);
    NwGattacaRow1Left(g, c, a, t);
    NwGattacaRow1Right(g, c, a, t);
    var row, col, cfg := [g, c, a, t, g, c, g], [g, a, t, t, a, c, a], GattacaConfig;
    NwGattacaMoveAt44(g, c, a, t);
    NwOptimalTracebackPush(row, col, cfg, 4, 4, Left, 4, 3, Gap, t, -1);
  }

  /** At cell (5, 5) of that test's matrix the corrected move is the same, and it is tight. */
  lemma NwGattacaMoveAt55(g: Letter, c: Letter, a: Letter, t: Letter)
    requires GattacaLetters(g, c, a, t)
    ensures NwOptimalMove([g, c, a, t, g, c, g], [g, a, t, t, a, c, a], GattacaConfig, 5, 5) == Diagonal
  {
    NwGattacaRow4Right(g, c, a, t);
    NwGattacaRow5Right(g, c, a, t);
  }

  /** From cell (5, 5) of that test's matrix the corrected traceback pushes the same column. */
  lemma NwOptimalTracebackGattacaAt55(g: Letter, c: Letter, a: Letter, t: Letter)
    requires GattacaLetters(g, c, a, t)
    ensures var row, col := [g, c, a, t, g, c, g], [g, a, t, t, a, c, a];
      NwOptimalTraceback(row, col, GattacaConfig, 5, 5) == Extend(NwOptimalTraceback(row, col, GattacaConfig, 4, 4), g, a, -1)
  {
    NwGattacaRow5Left(g, c, a, t);
    NwGattacaRow5Right(g, c, a, t);
    NwGattacaRow4Left(g, c, a, t);
    NwGattacaRow4Right(g, c, a, t);
    NwGattacaRow3Left(g, c, a, t);
    NwGattacaRow3Right(g, c, a, t);
    NwGattacaRow2Left(g, c, a, t);
    NwGattacaRow2Right(g, c, a, t);
    NwGattacaRow1Left(g, c, a, t);
    NwGattacaRow1Right(g, c, a, t);
    var row, col, cfg := [g, c, a, t, g, c, g], [g, a, t, t, a, c, a], GattacaConfig;
    NwGattacaMoveAt55(g, c, a, t);
    NwOptimalTracebackPush(row, col, cfg, 5, 5, Diagonal, 4, 4, g, a, -1);
  }

  /** At cell (6, 6) of that test's matrix the corrected move is the same, and it is tight. */
  lemma NwGattacaMoveAt66(g: Letter, c: Letter, a: Letter, t: Letter)
    requires GattacaLetters(g, c, a, t)
    ensures NwOptimalMove([g, c, a, t, g, c, g], [g, a, t, t, a, c, a], GattacaConfig, 6, 6) == Diagonal
  {
    NwGattacaRow5Right(g, c, a, t);
    NwGattacaRow6Right(g, c, a, t);
  }

  /** From cell (6, 6) of that test's matrix the corrected traceback pushes the same column. */
  lemma NwOptimalTracebackGattacaAt66(g: Letter, c: Letter, a: Letter, t: Letter)
    requires GattacaLetters(g, c, a, t)
    ensures var row, col := [g, c, a, t, g, c, g], [g, a, t, t, a, c, a];
      NwOptimalTraceback(row, col, GattacaConfig, 6, 6) == Extend(NwOptimalTraceback(row, col, GattacaConfig, 5, 5), c, c, 1)
  {
    NwGattacaRow6Left(g, c, a, t);
    NwGattacaRow6Right(g, c, a, t);
    NwGattacaRow5Left(g, c, a, t);
    NwGattacaRow5Right(g, c, a, t);
    NwGattacaRow4Left(g, c, a, t);
    NwGattacaRow4Right(g, c, a, t);
    NwGattacaRow3Left(g, c, a, t);
    NwGattacaRow3Right(g, c, a, t);
    NwGattacaRow2Left(g, c, a, t);
    NwGattacaRow2Right(g, c, a, t);
    NwGattacaRow1Left(g, c, a, t);
    NwGattacaRow1Right(g, c, a, t);
    var row, col, cfg := [g, c, a, t, g, c, g], [g, a, t, t, a, c, a], GattacaConfig;
    NwGattacaMoveAt66(g, c, a, t);
    NwOptimalTracebackPush(row, col, cfg, 6, 6, Diagonal, 5, 5, c, c, 1);
  }

  /** At cell (7, 7) of that test's matrix the corrected move is the same, and it is tight. */
  lemma NwGattacaMoveAt77(g: Letter, c: Letter, a: Letter, t: Letter)
    requires GattacaLetters(g, c, a, t)
    ensures NwOptimalMove([g, c, a, t, g, c, g], [g, a, t, t, a, c, a], GattacaConfig, 7, 7) == Diagonal
  {
    NwGattacaRow6Right(g, c, a, t);
    NwGattacaRow7Right(g, c, a, t);
  }

  /** From cell (7, 7) of that test's matrix the corrected traceback pushes the same column. */
  lemma NwOptimalTracebackGattacaAt77(g: Letter, c: Letter, a: Letter, t: Letter)
    requires GattacaLetters(g, c, a, t)
    ensures var row, col := [g, c, a, t, g, c, g], [g, a, t, t, a, c, a];
      NwOptimalTraceback(row, col, GattacaConfig, 7, 7) == Extend(NwOptimalTraceback(row, col, GattacaConfig, 6, 6), g, a, -1)
  {
    NwGattacaRow7Left(g, c, a, t);
    NwGattacaRow7Right(g, c, a, t);
    NwGattacaRow6Left(g, c, a, t);
    NwGattacaRow6Right(g, c, a, t);
    NwGattacaRow5Left(g, c, a, t);
    NwGattacaRow5Right(g, c, a, t);
    NwGattacaRow4Left(g, c, a, t);
    NwGattacaRow4Right(g, c, a, t);
    NwGattacaRow3Left(g, c, a, t);
    NwGattacaRow3Right(g, c, a, t);
    NwGattacaRow2Left(g, c, a, t);
    NwGattacaRow2Right(g, c, a, t);
    NwGattacaRow1Left(g, c, a, t);
    NwGattacaRow1Right(g, c, a, t);
    var row, col, cfg := [g, c, a, t, g, c, g], [g, a, t, t, a, c, a], GattacaConfig;
    NwGattacaMoveAt77(g, c, a, t);
    NwOptimalTracebackPush(row, col, cfg, 7, 7, Diagonal, 6, 6, g, a, -1);
  }

  /** The eight columns of that test's traceback, pushed one by one, spell "GCAT-GCG" over "G-ATTACA" with score 0. */
  lemma GattacaExpectedColumns(g: Letter, c: Letter, a: Letter, t: Letter)
    ensures Extend(Extend(Extend(Extend(Extend(Extend(Extend(Extend(GlobalAlignmentResult([], [], 0), g, g, 1), c, Gap, -1), a, a, 1), t, t, 1), Gap, t, -1), g, a, -1), c, c, 1), g, a, -1) ==
      GlobalAlignmentResult([g, c, a, t, Gap, g, c, g], [g, Gap, a, t, t, a, c, a], 0)
  {
  }

  /** The matrix `needleman_wunsch` fills for that test, row by row. */
  const GattacaMatrix: seq<seq<int>> := [
    [0, -1, -2, -3, -4, -5, -6, -7],
    [-1, 1, 0, -1, -2, -3, -4, -5],
    [-2, 0, 0, -1, -2, -3, -2, -3],
    [-3, -1, 1, 0, -1, -1, -2, -1],
    [-4, -2, 0, 2, 1, 0, -1, -2],
    [-5, -3, -1, 1, 1, 0, -1, -2],
    [-6, -4, -2, 0, 0, 0, 1, 0],
    [-7, -5, -3, -1, -1, -1, 0, 0]]

  /** Rows 0 to 3 of the matrix the code fills for that test. */
  lemma NwGattacaMatrixUpper(g: Letter, c: Letter, a: Letter, t: Letter)
    requires GattacaLetters(g, c, a, t)
    ensures var grid := NwGrid([g, c, a, t, g, c, g], [g, a, t, t, a, c, a], GattacaConfig);
      grid[0] == GattacaMatrix[0] && grid[1] == GattacaMatrix[1] && grid[2] == GattacaMatrix[2] && grid[3] == GattacaMatrix[3]
  {
    var grid := NwGrid([g, c, a, t, g, c, g], [g, a, t, t, a, c, a], GattacaConfig);
    NwGattacaRow1Left(g, c, a, t);
    NwGattacaRow1Right(g, c, a, t);
    NwGattacaRow2Left(g, c, a, t);
    NwGattacaRow2Right(g, c, a, t);
    NwGattacaRow3Left(g, c, a, t);
    NwGattacaRow3Right(g, c, a, t);
    assert grid[0] == GattacaMatrix[0];
    assert grid[1] == GattacaMatrix[1];
    assert grid[2] == GattacaMatrix[2];
  }

  /** Rows 4 to 7 of the matrix the code fills for that test. */
  lemma NwGattacaMatrixLower(g: Letter, c: Letter, a: Letter, t: Letter)
    requires GattacaLetters(g, c, a, t)
    ensures var grid := NwGrid([g, c, a, t, g, c, g], [g, a, t, t, a, c, a], GattacaConfig);
      grid[4] == GattacaMatrix[4] && grid[5] == GattacaMatrix[5] && grid[6] == GattacaMatrix[6] && grid[7] == GattacaMatrix[7]
  {
    var grid := NwGrid([g, c, a, t, g, c, g], [g, a, t, t, a, c, a], GattacaConfig);
    NwGattacaRow3Left(g, c, a, t);
    NwGattacaRow3Right(g, c, a, t);
    NwGattacaRow2Left(g, c, a, t);
    NwGattacaRow2Right(g, c, a, t);
    NwGattacaRow1Left(g, c, a, t);
    NwGattacaRow1Right(g, c, a, t);
    NwGattacaRow4Left(g, c, a, t);
    NwGattacaRow4Right(g, c, a, t);
    NwGattacaRow5Left(g, c, a, t);
    NwGattacaRow5Right(g, c, a, t);
    NwGattacaRow6Left(g, c, a, t);
    NwGattacaRow6Right(g, c, a, t);
    NwGattacaRow7Left(g, c, a, t);
    NwGattacaRow7Right(g, c, a, t);
    assert grid[4] == GattacaMatrix[4];
    assert grid[5] == GattacaMatrix[5];
    assert grid[6] == GattacaMatrix[6];
  }

  /** The code fills exactly `GattacaMatrix` for that test. */
  lemma NwGattacaMatrix(g: Letter, c: Letter, a: Letter, t: Letter)
    requires GattacaLetters(g, c, a, t)
    ensures NwGrid([g, c, a, t, g, c, g], [g, a, t, t, a, c, a], GattacaConfig) == GattacaMatrix
  {
    NwGattacaMatrixUpper(g, c, a, t);
    NwGattacaMatrixLower(g, c, a, t);
    assert |NwGrid([g, c, a, t, g, c, g], [g, a, t, t, a, c, a], GattacaConfig)| == 8;
  }

  /**
   * On that test the traceback of the code, over the matrix it fills, returns
   * the alignment the test expects, "GCAT-GCG" over "G-ATTACA" with score 0.
   */
  lemma NwTracebackGattacaAsWritten(g: Letter, c: Letter, a: Letter, t: Letter)
    requires GattacaLetters(g, c, a, t)
    ensures var row, col := [g, c, a, t, g, c, g], [g, a, t, t, a, c, a];
      NwTraceback(NwGrid(row, col, GattacaConfig), 8, row, col, GattacaConfig, 7, 7).result ==
      GlobalAlignmentResult([g, c, a, t, Gap, g, c, g], [g, Gap, a, t, t, a, c, a], 0)
  {
    var row, col, cfg := [g, c, a, t, g, c, g], [g, a, t, t, a, c, a], GattacaConfig;
    NwGattacaMatrix(g, c, a, t);
    assert NwTraceback(GattacaMatrix, 8, row, col, cfg, 0, 0).result == GlobalAlignmentResult([], [], 0);
    NwTracebackPush(GattacaMatrix, 8, row, col, cfg, 1, 1, Diagonal, 0, 0, g, g, 1);
    NwTracebackPush(GattacaMatrix, 8, row, col, cfg, 2, 1, Up, 1, 1, c, Gap, -1);
    NwTracebackPush(GattacaMatrix, 8, row, col, cfg, 3, 2, Diagonal, 2, 1, a, a, 1);
    NwTracebackPush(GattacaMatrix, 8, row, col, cfg, 4, 3, Diagonal, 3, 2, t, t, 1);
    NwTracebackPush(GattacaMatrix, 8, row, col, cfg, 4, 4, Left, 4, 3, Gap, t, -1);
    NwTracebackPush(GattacaMatrix, 8, row, col, cfg, 5, 5, Diagonal, 4, 4, g, a, -1);
    NwTracebackPush(GattacaMatrix, 8, row, col, cfg, 6, 6, Diagonal, 5, 5, c, c, 1);
    NwTracebackPush(GattacaMatrix, 8, row, col, cfg, 7, 7, Diagonal, 6, 6, g, a, -1);
    GattacaExpectedColumns(g, c, a, t);
  }

  /** On that test the corrected traceback returns the same alignment, "GCAT-GCG" over "G-ATTACA" with score 0. */
  lemma NwOptimalTracebackGattaca(g: Letter, c: Letter, a: Letter, t: Letter)
    requires GattacaLetters(g, c, a, t)
    ensures NwOptimalTraceback([g, c, a, t, g, c, g], [g, a, t, t, a, c, a], GattacaConfig, 7, 7) ==
      GlobalAlignmentResult([g, c, a, t, Gap, g, c, g], [g, Gap, a, t, t, a, c, a], 0)
  {
    var row, col, cfg := [g, c, a, t, g, c, g], [g, a, t, t, a, c, a], GattacaConfig;
    assert NwOptimalTraceback(row, col, cfg, 0, 0) == GlobalAlignmentResult([], [], 0);
    NwOptimalTracebackGattacaAt11(g, c, a, t);
    NwOptimalTracebackGattacaAt21(g, c, a, t);
    NwOptimalTracebackGattacaAt32(g, c, a, t);
    NwOptimalTracebackGattacaAt43(g, c, a, t);
    NwOptimalTracebackGattacaAt44(g, c, a, t);
    NwOptimalTracebackGattacaAt55(g, c, a, t);
    NwOptimalTracebackGattacaAt66(g, c, a, t);
    NwOptimalTracebackGattacaAt77(g, c, a, t);
    GattacaExpectedColumns(g, c, a, t);
  }

  /**
   * The first unit test of `needleman_wunsch`, "WHAT" against "WHY" with
   * weights 1, -1 and -2, over any five distinct letters standing for W, H,
   * A, T and Y: the code returns "WHAT" over "WHY-" with score -1.
   */
  method NeedlemanWunschWhatWhy(w: Letter, h: Letter, a: Letter, t: Letter, y: Letter) returns (result: GlobalAlignmentResult)
    requires WhatWhyLetters(w, h, a, t, y)
    ensures result == GlobalAlignmentResult([w, h, a, t], [w, h, y, Gap], -1)
  {
    result := NeedlemanWunsch([w, h, a, t], [w, h, y], WhatWhyConfig);
    NwTracebackWhatWhyAsWritten(w, h, a, t, y);
  }

  /**
   * The second unit test of `needleman_wunsch`, "GCATGCG" against "GATTACA"
   * with weights 1, -1 and -1, over any four distinct letters standing for G,
   * C, A and T: the code returns "GCAT-GCG" over "G-ATTACA" with score 0.
   */
  method NeedlemanWunschGattaca(g: Letter, c: Letter, a: Letter, t: Letter) returns (result: GlobalAlignmentResult)
    requires GattacaLetters(g, c, a, t)
    ensures result == GlobalAlignmentResult([g, c, a, t, Gap, g, c, g], [g, Gap, a, t, t, a, c, a], 0)
  {
    result := NeedlemanWunsch([g, c, a, t, g, c, g], [g, a, t, t, a, c, a], GattacaConfig);
    NwTracebackGattacaAsWritten(g, c, a, t);
  }
}
