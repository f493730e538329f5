/** Treating a matrix as a system of linear equations: substituting concrete
    values for the unknowns evaluates each equation's left-hand side. */
module System {
  import opened Matrix

  /** The fold `acc + values[k] * row[k]` over k = i, i + 1, ..., |row| - 1, in column order. */
  function FoldFrom(acc: int, row: seq<int>, values: seq<int>, i: nat): int
    requires i <= |row| <= |values|
    decreases |row| - i
  {
    if i == |row| then acc else FoldFrom(acc + values[i] * row[i], row, values, i + 1)
  }

  /** Reference dot product of `row` with the first |row| entries of `values`. */
  function Dot(row: seq<int>, values: seq<int>): int
    requires |row| <= |values|
  {
    if row == [] then 0 else values[0] * row[0] + Dot(row[1..], values[1..])
  }

  /** The left fold from `acc` adds exactly the dot product of the rest of the row. */
  lemma {:induction false} FoldIsDot(acc: int, row: seq<int>, values: seq<int>, i: nat)
    requires i <= |row| <= |values|
    ensures FoldFrom(acc, row, values, i) == acc + Dot(row[i..], values[i..])
    decreases |row| - i
  {
    if i < |row| {
      FoldIsDot(acc + values[i] * row[i], row, values, i + 1);
      assert row[i..][1..] == row[i + 1..];
      assert values[i..][1..] == values[i + 1..];
    }
  }

  /** Folding a whole row from zero is its dot product. */
  lemma FoldFromZeroIsDot(row: seq<int>, values: seq<int>)
    requires |row| <= |values|
    ensures FoldFrom(0, row, values, 0) == Dot(row, values)
  {
    FoldIsDot(0, row, values, 0);
    assert row[0..] == row && values[0..] == values;
  }

  /** The rows `substitute` builds: `n` rows of one entry each, where the
      generator's second argument, the column index, selects the input row. */
  function Evaluations(d: Grid, n: nat, values: seq<int>): (g: Grid)
    requires n == |values|
    requires n > 0 ==> |d| > 0 && |d[0]| <= |values|
    ensures |g| == n && Uniform(g, 1)
    ensures forall r | 0 <= r < n :: g[r] == [Dot(d[0], values)]
  {
    var g := Generate(n, 1, (r: nat, c: nat) requires c < |d| && |d[c]| <= |values| =>
      FoldFrom(0, d[c], values, 0));
    if n == 0 then g
    else
      FoldFromZeroIsDot(d[0], values);
      assert forall r | 0 <= r < n :: g[r] == [g[r][0]];
      g
  }

  /** The rows that evaluate every equation: row `r` of the result is the
      dot product of input row `r` with `values`. */
  function RowEvaluations(d: Grid, n: nat, values: seq<int>): (g: Grid)
    requires n == |values| && |d| == n
    requires forall r | 0 <= r < n :: |d[r]| <= |values|
    ensures |g| == n && Uniform(g, 1)
    ensures forall r | 0 <= r < n :: g[r] == [Dot(d[r], values)]
  {
    var g := Generate(n, 1, (r: nat, c: nat) requires r < |d| && |d[r]| <= |values| =>
      FoldFrom(0, d[r], values, 0));
    assert forall r | 0 <= r < n :: g[r] == [Dot(d[r], values)] by {
      forall r | 0 <= r < n
        ensures g[r] == [Dot(d[r], values)]
      {
        FoldFromZeroIsDot(d[r], values);
        assert g[r] == [g[r][0]];
      }
    }
    g
  }

  /** Builds the single-column matrix of evaluations with `new_with`; `matrix` is only read. */
  method Substitute(matrix: Mat2, values: seq<int>) returns (result: Mat2)
    requires matrix.GetDimension().1 == |values|
    requires matrix.n > 0 ==> |matrix.data| > 0 && |matrix.data[0]| <= |values|
    ensures fresh(result) && result.Shaped()
    ensures result.GetDimension() == (1, matrix.n)
    ensures result.data == Evaluations(matrix.data, matrix.n, values)
  {
    var n := matrix.GetDimension().1;
    var d := matrix.data;
    result := new Mat2.NewWith(n, 1, (r: nat, c: nat) requires c < |d| && |d[c]| <= |values| =>
      FoldFrom(0, d[c], values, 0));
    var e := Evaluations(d, n, values);
    forall r | 0 <= r < n
      ensures result.data[r] == e[r]
    {
      FoldFromZeroIsDot(d[0], values);
      assert result.data[r] == [result.data[r][0]];
    }
  }

  /** The evaluations as written and as intended agree when every row equals row 0. */
  lemma EvaluationsAgreeOnEqualRows(d: Grid, n: nat, values: seq<int>)
    requires n == |values| && |d| == n
    requires forall r | 0 <= r < n :: |d[r]| <= |values| && d[r] == d[0]
    ensures Evaluations(d, n, values) == RowEvaluations(d, n, values)
  {
  }

  /** The example from the tests: an all-ones 2 by 2 matrix and values [2, 3]
      give 1 * 2 + 1 * 3 = 5 in both rows. */
  lemma SubstituteAllOnes()
    ensures Evaluations([[1, 1], [1, 1]], 2, [2, 3]) == [[5], [5]]
  {
  }

  /** On the identity matrix the code yields the first value in every row,
      while the evaluation of each equation gives [2] and [3]. */
  lemma SubstituteRepeatsRowZero()
    ensures Evaluations([[1, 0], [0, 1]], 2, [2, 3]) == [[2], [2]]
    ensures RowEvaluations([[1, 0], [0, 1]], 2, [2, 3]) == [[2], [3]]
  {
  }

  /** Scaling a row scales its evaluation. */
  lemma {:induction false} DotScaled(row: seq<int>, values: seq<int>, a: int)
    requires |row| <= |values|
    ensures Dot(Scaled(row, a), values) == a * Dot(row, values)
  {
    if row != [] {
      DotScaled(row[1..], values[1..], a);
      assert Scaled(row, a)[1..] == Scaled(row[1..], a);
      calc {
        Dot(Scaled(row, a), values);
        values[0] * (row[0] * a) + Dot(Scaled(row[1..], a), values[1..]);
        values[0] * (row[0] * a) + a * Dot(row[1..], values[1..]);
        { assert values[0] * (row[0] * a) == a * (values[0] * row[0]); }
        a * (values[0] * row[0]) + a * Dot(row[1..], values[1..]);
        a * (values[0] * row[0] + Dot(row[1..], values[1..]));
      }
    }
  }

  /** Adding `a` times one equation to another adds `a` times its evaluation. */
  lemma {:induction false} DotScaledSum(src: seq<int>, dst: seq<int>, values: seq<int>, a: int)
    requires |src| == |dst| <= |values|
    ensures Dot(ScaledSum(src, dst, a), values) == a * Dot(src, values) + Dot(dst, values)
  {
    if src != [] {
      DotScaledSum(src[1..], dst[1..], values[1..], a);
      assert ScaledSum(src, dst, a)[1..] == ScaledSum(src[1..], dst[1..], a);
      calc {
        Dot(ScaledSum(src, dst, a), values);
        values[0] * (src[0] * a + dst[0]) + Dot(ScaledSum(src[1..], dst[1..], a), values[1..]);
        values[0] * (src[0] * a + dst[0]) + a * Dot(src[1..], values[1..]) + Dot(dst[1..], values[1..]);
        { assert values[0] * (src[0] * a + dst[0]) == a * (values[0] * src[0]) + values[0] * dst[0]; }
        a * (values[0] * src[0] + Dot(src[1..], values[1..])) + (values[0] * dst[0] + Dot(dst[1..], values[1..]));
      }
    }
  }
}
