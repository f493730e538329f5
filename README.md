# Mat2: a dense matrix with row operations, and linear-system substitution

This project models the `linalg` crate: a two-dimensional dense matrix `Mat2`
stored as a sequence of rows with a cached row count `n` and column count `m`,
and the function `substitute`, which evaluates each row of a coefficient matrix
against a vector of values and returns the results as a single-column matrix.
The element type is instantiated as `int`; its default and zero value is `0`.

- `matrix.dfy`, module `Matrix` (matrix.rs): `Mat2` is a class with fields
  `data: seq<seq<int>>`, `n` and `m`. Two invariants are kept apart:
  `Valid()` says `|data| == n` and is kept by every operation; `Shaped()` adds
  that every row has `m` entries. The constructors establish `Shaped()`,
  `swap_rows`, `scale_row` and `add_scaled` keep it, `set_row` keeps it exactly
  when the new row has `m` entries, and `add_column` breaks it on any matrix
  with rows, because it never updates `m`. Each mutating method states its new
  `data` as a function of the old one (`Swapped`, `WithColumn`, `Scaled`,
  `ScaledSum`), and lemmas state what those functions promise. `RowIterator`
  is a class holding the matrix and a cursor.
- `system.dfy`, module `System` (system.rs): `FoldFrom` is the
  `enumerate().fold(...)` of the code, `Dot` an independent right-recursive dot
  product, and `FoldIsDot` proves them equal. `Evaluations` is the grid that
  `substitute` builds with `new_with`; `Substitute` allocates it as a `Mat2`.
  Because the generator closure names its *second* argument (the column index,
  always 0) and uses it as the row index, every output row is the evaluation
  of input row 0; see Findings.
- `tests.dfy`, module `MatrixTests`: the unit tests of both files, replayed as
  client methods that use only the contracts.

## Model

| member | source | states |
|---|---|---|
| `Matrix.Mat2.New` | matrix.rs:27-31 | `n` rows of `m` default (zero) entries; `Shaped()`, so `get_dimension` is `(m, n)` |
| `Matrix.Mat2.NewWith` | matrix.rs:37-41 | entry at row r, column c is `f(r, c)`; `Shaped()` with the given `n` and `m` |
| `Matrix.Generate` | matrix.rs:38 | the generated grid has `n` rows, each of `m` entries, and holds `f(r, c)` at (r, c) |
| `Matrix.NewMatchesNewWith` | matrix.rs:135-143 | `new(n, m)` and `new_with(n, m, \|_, _\| 0)` produce the same rows, for every n and m |
| `Matrix.Mat2.FromVec` | matrix.rs:43-59 | `None` exactly when the input is empty or some row's length differs from row 0's; otherwise a fresh, shaped matrix adopting the input with `n = \|v\|` and `m = \|v[0]\|` |
| `Matrix.RectangularIsGenerated` | matrix.rs:37-59 | every input `from_vec` accepts equals what `new_with` builds from its own entries |
| `Matrix.Mat2.GetDimension` | matrix.rs:61-64 | on a shaped matrix, the second component is the number of rows and the first the length of every row: columns first |
| `Matrix.Swapped` | matrix.rs:66-69 | rows i and j exchanged, every other row and the row count unchanged |
| `Matrix.Mat2.SwapRows` | matrix.rs:66-69 | requires both indices in range; new rows are `Swapped` of the old; `n`, `m` unchanged; keeps `Valid()` and `Shaped()` |
| `Matrix.SwappedTwice` | matrix.rs:66-69 | swapping the same two rows twice restores the original rows |
| `Matrix.Mat2.SetRow` | matrix.rs:71-74 | requires the index in range; only row i is replaced; no length check, so a shaped matrix stays shaped exactly when the new row has `m` entries |
| `Matrix.Mat2.GetRow` | matrix.rs:76-79 | requires the index in range; on a shaped matrix the row has the reported column count |
| `Matrix.Mat2.GetRowOpt` | matrix.rs:81-84 | `None` exactly when the index is at least the number of rows; otherwise the same row as `get_row` |
| `Matrix.WithColumn` | matrix.rs:91-93 | row idx becomes the old row followed by `col[idx]`; the number of rows is unchanged |
| `Matrix.Mat2.AddColumn` | matrix.rs:86-94 | requires `\|col\| == n`; new rows are `WithColumn` of the old; `n` and `m` unchanged, so a shaped matrix with rows is no longer shaped |
| `Matrix.WithColumnOutgrowsWidth` | matrix.rs:86-94 | after appending a column to rows of width w every row has w + 1 entries, so none of them has width w any more |
| `Matrix.Mat2.AddColumnSynced` | matrix.rs:86-94 | as `add_column`, with `m` increased by one, which keeps `Shaped()` |
| `Matrix.Mat2.RowIter` | matrix.rs:96-102 | a fresh iterator over this matrix with its cursor at 0 |
| `Matrix.RowIterator.Next` | matrix.rs:16-22 | returns `get_row_opt(cursor)` and always advances the cursor by one: rows 0..n-1 in order, then `None` on every later call |
| `Matrix.Mat2.ScaleRow` | matrix.rs:105-111 | requires the index in range; row i becomes `Scaled` of itself, other rows unchanged; keeps `Valid()` and `Shaped()` |
| `Matrix.Mat2.AddScaled` | matrix.rs:120-127 | requires both indices in range and row j at least as long as row i; row j becomes `ScaledSum(row i, row j, a)`, every other row (row i too when i != j) unchanged; keeps `Valid()` and `Shaped()` |
| `Matrix.ScaledSumUndo` | matrix.rs:123-127 | adding `a` times a row and then `-a` times it restores the target row |
| `Matrix.EqMeansSameDimensionAndEntries` | matrix.rs:114-118 | for shaped matrices with rows, `eq` holds exactly when the dimensions and every entry agree |
| `Matrix.EmptyMatricesAreEqual` | matrix.rs:114-118 | `eq` compares rows only: two matrices without rows are equal whatever their column counts |
| `Matrix.EqIsEquivalence` | matrix.rs:114-118 | `eq` is reflexive, symmetric and transitive |
| `System.FoldIsDot` | system.rs:11-13 | the left fold `acc + values[i] * row[i]` from index i equals `acc` plus the reference dot product of the remaining entries |
| `System.FoldFromZeroIsDot` | system.rs:11-13 | the fold from zero over a whole row is its dot product with `values` |
| `System.Evaluations` | system.rs:9-13 | requires `n == \|values\|` and, when there are rows, row 0 no longer than `values`; n rows of one entry, each the dot product of input row 0 with `values` |
| `System.Substitute` | system.rs:6-14 | a fresh shaped matrix of dimension `(1, n)` holding `Evaluations`; the input matrix is only read |
| `System.RowEvaluations` | system.rs:11-13 | corrected: row r holds the dot product of input row r with `values` |
| `System.EvaluationsAgreeOnEqualRows` | system.rs:22-27 | as written and corrected agree whenever every row equals row 0, as in the unit test |
| `System.SubstituteAllOnes` | system.rs:22-27 | the all-ones 2 by 2 matrix with values [2, 3] gives [[5], [5]] |
| `System.SubstituteRepeatsRowZero` | system.rs:11 | on the identity matrix with values [2, 3] the code gives [[2], [2]], the corrected evaluation [[2], [3]] |
| `System.DotScaled` | matrix.rs:105-111 | scaling a row by a scales its evaluation by a |
| `System.DotScaledSum` | matrix.rs:120-127 | the evaluation of `row i * a + row j` is `a` times that of row i plus that of row j |

## Left out

- The element type is `int` with `0` as default and zero; the separate trait bounds (`Default`, `Clone`, `Mul`, `Add`, `Zero`, `Eq`) and `#[deriving(Clone)]` are not modelled.
- Fixed-width `uint` and `int` arithmetic (overflow of entries and of the iterator cursor) is not modelled: integers are unbounded.
- Panics (out-of-range indices, the `assert_eq!` in `add_column` and `substitute`) are `requires` clauses, not runtime behaviour.
- Borrowed slices and lifetimes: rows are returned as values. The iterator keeps a reference to the matrix and re-reads its rows on every `Next`; the borrow rule that forbids mutating the matrix while an iterator is alive is not enforced.
- The `unsafe_mut_ref` in `add_column` is modelled as indexed updates under the requirement `Valid() && |col| == n`, which is what makes it safe.
- The order in which `new_with` calls its generator is not modelled: generators are pure functions.
- The `#[test]` harness: its cases appear as lemmas and as client methods in `tests.dfy`.
- Equality: the code compares the rows only, not the cached counts; the model follows the code, so two matrices without rows are equal even when their column counts differ.
- `Matrix.Mat2.GetRow`: the contract states the row's length; that the row is `data[i]` is its definition.

## Findings

| source | as written | input that shows it | evidently intended | confidence | as-written member | corrected member |
|---|---|---|---|---|---|---|
| system.rs:11 | the generator closure `\|_, n\|` binds the column index (always 0) and uses it as the row index, so every output row evaluates input row 0 | matrix [[1, 0], [0, 1]], values [2, 3]: result [[2], [2]] (`System.SubstituteRepeatsRowZero`) | row r evaluates input row r: [[2], [3]] | high, not executed | `System.Evaluations` | `System.RowEvaluations` |
| matrix.rs:87-94 | `add_column` grows every row but never updates the cached column count `m` | the 3 by 3 test matrix with column [0, 0, 0]: rows have 4 entries but `get_dimension` still gives (3, 3) (`MatrixTests.AddColumnCase`, `Matrix.WithColumnOutgrowsWidth`) | `m` increases by one | medium, not executed | `Matrix.Mat2.AddColumn` | `Matrix.Mat2.AddColumnSynced` |
