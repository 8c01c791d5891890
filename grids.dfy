/**
 * Row-major grids as both generators lay them out: row y of a grid with
 * `cols` columns occupies the indices y*cols .. y*cols+cols-1. Cells counts
 * the cells of the first rows the way a write cursor advances over them.
 */
module Grids {
  /**
   * How many cells the first `rows` rows hold, counted row by row (the
   * write cursor of a row-major fill after `rows` rows).
   */
  function Cells(cols: nat, rows: nat): (r: nat)
  {
    if rows == 0 then 0 else Cells(cols, rows - 1) + cols
  }

  lemma {:induction false} CellsIsProduct(cols: nat, rows: nat)
    ensures Cells(cols, rows) == rows * cols == cols * rows
  {
    if rows > 0 {
      CellsIsProduct(cols, rows - 1);
      assert rows * cols == (rows - 1) * cols + cols;
    }
  }

  lemma {:induction false} CellsMono(cols: nat, j: nat, k: nat)
    requires j <= k
    ensures Cells(cols, j) <= Cells(cols, k)
  {
    if j < k {
      CellsMono(cols, j, k - 1);
    }
  }
}
