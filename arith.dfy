/** Small facts about products of naturals that the row-major index proofs need. */
module Arith {
  lemma MulMono(a: int, b: int, n: int)
    requires a <= b && 0 <= n
    ensures a * n <= b * n
  {
    assert b * n - a * n == (b - a) * n;
  }

  /** The cell (y, i) of a grid with rows of width n lies before the end of row `rows`. */
  lemma RowMajorBound(y: int, i: int, n: int, rows: int)
    requires 0 <= y < rows && 0 <= i < n
    ensures 0 <= y * n + i < rows * n
    ensures y * n + i + 1 <= rows * n
  {
    MulMono(y + 1, rows, n);
    MulMono(0, y, n);
  }

  /** i / n < 1 for 0 <= i < n. */
  lemma FractionBelowOne(i: int, n: int)
    requires 0 <= i < n
    ensures 0.0 <= i as real / n as real < 1.0
  {
    var q := i as real / n as real;
    assert q * n as real == i as real;
  }

  /** Row y + 1 of a grid with `rows` rows of n cells ends at (y + 1) * n <= rows * n. */
  lemma NextRowBound(y: int, n: int, rows: int)
    requires 0 <= y < rows && 0 <= n
    ensures y * n + n == (y + 1) * n <= rows * n
  {
    MulMono(y + 1, rows, n);
  }
}
