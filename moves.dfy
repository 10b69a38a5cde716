/**
 * The three moves a traceback makes through an alignment matrix, shared by
 * the global and the local traceback: from cell (i, j) a move goes back to
 * a neighbour and pushes one aligned column.
 */
module Moves {
  import opened Letters

  datatype Move = Diagonal | Up | Left

  /** A move from cell (i, j) stays inside the matrix: only a left move keeps row 0, only an up move keeps column 0. */
  predicate CanMove(m: Move, i: nat, j: nat) {
    (m != Left ==> i > 0) && (m != Up ==> j > 0)
  }

  /** The neighbour a move from cell (i, j) goes back to. */
  function StepBack(m: Move, i: nat, j: nat): (p: (nat, nat))
    requires CanMove(m, i, j)
    ensures p.0 + p.1 < i + j
    ensures p.0 == (if m == Left then i else i - 1)
    ensures p.1 == (if m == Up then j else j - 1)
  {
    match m
    case Diagonal => (i - 1, j - 1)
    case Up => (i - 1, j)
    case Left => (i, j - 1)
  }

  /** The letter a move pushes onto the aligned row: the row letter it crosses, or the gap. */
  function RowLetter(m: Move, row: seq<Letter>, i: nat): (r: Letter)
    requires m != Left ==> i > 0
    ensures m == Left ==> r == Gap
    ensures m != Left ==> r == LetterAt(row, i - 1)
  {
    if m == Left then Gap else LetterAt(row, i - 1)
  }

  /** The letter a move pushes onto the aligned column: the column letter it crosses, or the gap. */
  function ColumnLetter(m: Move, col: seq<Letter>, j: nat): (r: Letter)
    requires m != Up ==> j > 0
    ensures m == Up ==> r == Gap
    ensures m != Up ==> r == LetterAt(col, j - 1)
  {
    if m == Up then Gap else LetterAt(col, j - 1)
  }

  /** Over gap-free sequences every move pushes at least one letter, so no column is a gap against a gap. */
  lemma MovePushesLetter(m: Move, row: seq<Letter>, col: seq<Letter>, i: nat, j: nat)
    requires NoGap(row) && NoGap(col) && i <= |row| && j <= |col| && CanMove(m, i, j)
    ensures RowLetter(m, row, i) != Gap || ColumnLetter(m, col, j) != Gap
  {
    if m == Left {
      assert col[j - 1] != Gap;
    } else {
      assert row[i - 1] != Gap;
    }
  }
}
