/**
 * The dense row-major score grid both aligners fill (src/matrix.rs). Cell
 * (i, j) lives at offset `i * width + j` of one buffer; the ghost field
 * `cells` is the grid that buffer stands for, one sequence per row.
 */
module Matrix {
  import opened Wrappers

  /** Offset of cell (i, j) in a row-major buffer whose rows are `w` long. */
  function Offset(i: nat, j: nat, w: nat): nat {
    i * w + j
  }

  /** `a <= b` survives multiplication by a natural number. */
  lemma MulMonotone(a: nat, b: nat, c: nat)
    requires a <= b
    ensures a * c <= b * c
  {
    assert b * c == a * c + (b - a) * c;
  }

  /** A cell inside an `h` by `w` grid has its offset inside the buffer. */
  lemma OffsetInside(i: nat, j: nat, h: nat, w: nat)
    requires i < h && j < w
    ensures Offset(i, j, w) < h * w
  {
    MulMonotone(i + 1, h, w);
  }

  /** A row index at or past `h` puts the offset past an `h`-row buffer. */
  lemma OffsetOutside(i: nat, j: nat, h: nat, w: nat)
    requires h <= i
    ensures h * w <= Offset(i, j, w)
  {
    MulMonotone(h, i, w);
  }

  /** Distinct cells of a grid with rows of length `w` have distinct offsets. */
  lemma OffsetInjective(i: nat, j: nat, i2: nat, j2: nat, w: nat)
    requires j < w && j2 < w
    requires Offset(i, j, w) == Offset(i2, j2, w)
    ensures i == i2 && j == j2
  {
    if i < i2 {
      MulMonotone(i + 1, i2, w);
      assert false;
    } else if i2 < i {
      MulMonotone(i2 + 1, i, w);
      assert false;
    }
  }

  /** Dividing an exact multiple by its factor gives the other factor back. */
  lemma DivExact(h: nat, w: nat)
    requires w > 0
    ensures (h * w) / w == h
  {
    var q := (h * w) / w;
    var r := (h * w) % w;
    assert h * w == q * w + r;
    if q < h {
      MulMonotone(q + 1, h, w);
      assert false;
    } else if h < q {
      MulMonotone(h + 1, q, w);
      assert false;
    }
  }

  /** `g` has rows all `w` cells long. */
  ghost predicate Rect(g: seq<seq<int>>, w: nat) {
    forall i :: 0 <= i < |g| ==> |g[i]| == w
  }

  /** Cell (a, b) comes after cell (i, j) in row-major order. */
  predicate RowMajorAfter(a: nat, b: nat, i: nat, j: nat) {
    a > i || (a == i && b > j)
  }

  /**
   * (i, j) holds the maximum of the grid `g` (`w` columns), and no cell after it
   * in row-major order holds that value: it is the last maximal cell.
   */
  ghost predicate IsLastMax(g: seq<seq<int>>, w: nat, i: nat, j: nat)
    requires Rect(g, w)
  {
    i < |g| && j < w &&
    (forall a, b :: 0 <= a < |g| && 0 <= b < w ==> g[a][b] <= g[i][j]) &&
    (forall a, b :: 0 <= a < |g| && 0 <= b < w && RowMajorAfter(a, b, i, j) ==> g[a][b] < g[i][j])
  }

  /** Row 0 and column 0 of `g` are those of `h`. */
  ghost predicate SameBorders(g: seq<seq<int>>, h: seq<seq<int>>, n: nat, m: nat)
    requires |g| == |h| == n + 1 && Rect(g, m + 1) && Rect(h, m + 1)
  {
    forall i, j :: 0 <= i <= n && 0 <= j <= m && (i == 0 || j == 0) ==> g[i][j] == h[i][j]
  }

  /** `g` and `h` agree on every cell except those of row `r` to the right of column `c`. */
  ghost predicate SameOutsideRow(g: seq<seq<int>>, h: seq<seq<int>>, n: nat, m: nat, r: nat, c: nat)
    requires |g| == |h| == n + 1 && Rect(g, m + 1) && Rect(h, m + 1)
  {
    forall i, j :: 0 <= i <= n && 0 <= j <= m && !(i == r && c < j) ==> g[i][j] == h[i][j]
  }

  /** `g` and `h` agree on every cell except those of column `c` below row `r`. */
  ghost predicate SameOutsideColumn(g: seq<seq<int>>, h: seq<seq<int>>, n: nat, m: nat, r: nat, c: nat)
    requires |g| == |h| == n + 1 && Rect(g, m + 1) && Rect(h, m + 1)
  {
    forall i, j :: 0 <= i <= n && 0 <= j <= m && !(j == c && r < i) ==> g[i][j] == h[i][j]
  }

  class AlignmentMatrix {
    const buf: array<int>
    const width: nat
    ghost var cells: seq<seq<int>>

    /** The buffer holds exactly the grid `cells`, row after row. */
    ghost predicate Valid()
      reads this, buf
    {
      Rect(cells, width) &&
      buf.Length == |cells| * width &&
      forall i, j {:trigger Offset(i, j, width)} :: 0 <= i < |cells| && 0 <= j < width ==>
        Offset(i, j, width) < buf.Length && buf[Offset(i, j, width)] == cells[i][j]
    }

    /** `AlignmentMatrix::new`, also standing for `zeroed`: `height` rows of `width` zeros. */
    constructor (height: nat, width: nat)
      ensures Valid() && fresh(buf)
      ensures this.width == width && |cells| == height
      ensures forall i, j :: 0 <= i < height && 0 <= j < width ==> cells[i][j] == 0
    {
      this.width := width;
      buf := new int[height * width](_ => 0);
      cells := seq(height, _ => seq(width, _ => 0));
      new;
      forall i, j | 0 <= i < height && 0 <= j < width
        ensures Offset(i, j, width) < height * width
      {
        OffsetInside(i, j, height, width);
      }
    }

    /** `height()`: the buffer length over the width, which must be nonzero. */
    function Height(): (h: nat)
      reads this, buf
      requires Valid() && width > 0
      ensures h == |cells|
    {
      DivExact(|cells|, width);
      buf.Length / width
    }

    /** `get` and `get_ref`: the score at (i, j), or nothing outside the grid. */
    function Get(i: nat, j: nat): (r: Option<int>)
      reads this, buf
      requires Valid()
      ensures r.Some? <==> i < |cells| && j < width
      ensures r.Some? ==> r.value == cells[i][j]
    {
      if j >= width then None
      else if Offset(i, j, width) < buf.Length then
        Some(buf[Offset(i, j, width)])
      else
        OffsetOutside(i, j, |cells|, width);
        None
    }

    /** `m[(i, j)]` and `m[[i, j]]`: the cell `get` reads, for coordinates known to be valid. */
    function At(i: nat, j: nat): (s: int)
      reads this, buf
      requires Valid() && i < |cells| && j < width
      ensures Get(i, j) == Some(s)
      ensures s == cells[i][j]
    {
      Get(i, j).value
    }

    /** `set`: overwrite cell (i, j) when it exists, and report whether it did. */
    method Set(i: nat, j: nat, score: int) returns (ok: bool)
      requires Valid()
      modifies this, buf
      ensures Valid()
      ensures ok <==> i < |old(cells)| && j < width
      ensures cells == if ok then old(cells)[i := old(cells)[i][j := score]] else old(cells)
      ensures ok ==> Get(i, j) == Some(score)
      ensures forall a: nat, b: nat :: (a, b) != (i, j) ==> Get(a, b) == old(Get(a, b))
    {
      if j >= width {
        ok := false;
      } else if Offset(i, j, width) < buf.Length {
        buf[Offset(i, j, width)] := score;
        cells := cells[i := cells[i][j := score]];
        forall a, b | 0 <= a < |cells| && 0 <= b < width && (a, b) != (i, j)
          ensures buf[Offset(a, b, width)] == cells[a][b]
        {
          if Offset(a, b, width) == Offset(i, j, width) {
            OffsetInjective(a, b, i, j, width);
          }
        }
        ok := true;
      } else {
        OffsetOutside(i, j, |cells|, width);
        ok := false;
      }
    }

    /** `m[[i, j]] = score` through `IndexMut`, for coordinates known to be valid. */
    method SetAt(i: nat, j: nat, score: int)
      requires Valid() && i < |cells| && j < width
      modifies this, buf
      ensures Valid()
      ensures cells == old(cells)[i := old(cells)[i][j := score]]
    {
      var ok := Set(i, j, score);
    }

    /**
     * `argmax_rev`, whose body is not part of the crate's matrix file: the last
     * cell in row-major order that holds the maximum, or nothing for an empty grid.
     */
    method ArgmaxRev() returns (r: Option<(nat, nat)>)
      requires Valid()
      ensures r.None? <==> |cells| == 0 || width == 0
      ensures r.Some? ==> IsLastMax(cells, width, r.value.0, r.value.1)
    {
      if width == 0 || buf.Length == 0 {
        return None;
      }
      var h := Height();
      ghost var g := cells;
      var bestI, bestJ := 0, 0;
      for i := 0 to h
        invariant bestI < h && bestJ < width
        invariant forall a, b :: 0 <= a < h && 0 <= b < width && RowMajorAfter(i, 0, a, b) ==>
          g[a][b] <= g[bestI][bestJ]
        invariant forall a, b :: 0 <= a < h && 0 <= b < width && RowMajorAfter(i, 0, a, b) && RowMajorAfter(a, b, bestI, bestJ) ==>
          g[a][b] < g[bestI][bestJ]
        invariant if i > 0 then RowMajorAfter(i, 0, bestI, bestJ) else bestI == 0 && bestJ == 0
      {
        for j := 0 to width
          invariant bestI < h && bestJ < width
          invariant forall a, b :: 0 <= a < h && 0 <= b < width && RowMajorAfter(i, j, a, b) ==>
            g[a][b] <= g[bestI][bestJ]
          invariant forall a, b :: 0 <= a < h && 0 <= b < width && RowMajorAfter(i, j, a, b) && RowMajorAfter(a, b, bestI, bestJ) ==>
            g[a][b] < g[bestI][bestJ]
          invariant if i > 0 || j > 0 then RowMajorAfter(i, j, bestI, bestJ) else bestI == 0 && bestJ == 0
        {
          if At(i, j) >= At(bestI, bestJ) {
            bestI, bestJ := i, j;
          }
        }
      }
      r := Some((bestI, bestJ));
    }
  }
}
