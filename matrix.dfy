/** A dense two-dimensional matrix of integers, stored as a sequence of rows
    together with a cached row count `n` and a cached column count `m`, with
    row-granular access and in-place row operations (swap, set, scale,
    scaled add, column append), a row iterator and structural equality. */
module Matrix {

  datatype Option<T> = None | Some(value: T)

  /** The rows of a matrix, row index first. */
  type Grid = seq<seq<int>>

  /** Every row of `g` has exactly `w` entries. */
  predicate Uniform(g: Grid, w: nat) {
    forall r | 0 <= r < |g| :: |g[r]| == w
  }

  /** What `from_vec` accepts: at least one row, and every row as long as the first. */
  predicate Rectangular(v: Grid) {
    |v| > 0 && Uniform(v, |v[0]|)
  }

  /** The `n` by `m` grid whose entry at row `r`, column `c` is `f(r, c)`. */
  function Generate(n: nat, m: nat, f: (nat, nat) --> int): (g: Grid)
    requires forall r: nat, c: nat | r < n && c < m :: f.requires(r, c)
    ensures |g| == n && Uniform(g, m)
    ensures forall r, c | 0 <= r < n && 0 <= c < m :: g[r][c] == f(r, c)
  {
    seq(n, r requires 0 <= r < n => seq(m, c requires 0 <= c < m => f(r, c)))
  }

  /** The grid `d` with rows `i` and `j` exchanged. */
  function Swapped(d: Grid, i: nat, j: nat): (s: Grid)
    requires i < |d| && j < |d|
    ensures |s| == |d| && s[i] == d[j] && s[j] == d[i]
    ensures forall k | 0 <= k < |d| && k != i && k != j :: s[k] == d[k]
  {
    d[i := d[j]][j := d[i]]
  }

  /** Each row of `d` followed by the entry of `col` at the same index. */
  function WithColumn(d: Grid, col: seq<int>): (e: Grid)
    requires |col| == |d|
    ensures |e| == |d|
    ensures forall r | 0 <= r < |d| ::
      |e[r]| == |d[r]| + 1 && e[r][..|d[r]|] == d[r] && e[r][|d[r]|] == col[r]
  {
    seq(|d|, r requires 0 <= r < |d| => d[r] + [col[r]])
  }

  /** Every entry of `row` multiplied by `a`. */
  function Scaled(row: seq<int>, a: int): seq<int> {
    seq(|row|, k requires 0 <= k < |row| => row[k] * a)
  }

  /** The row `src * a + dst`, entry by entry, as long as `src`. */
  function ScaledSum(src: seq<int>, dst: seq<int>, a: int): seq<int>
    requires |src| <= |dst|
  {
    seq(|src|, k requires 0 <= k < |src| => src[k] * a + dst[k])
  }

  class Mat2 {
    var data: Grid
    var n: nat
    var m: nat

    /** The cached row count is the number of rows. Every operation keeps this. */
    ghost predicate Valid()
      reads this
    {
      |data| == n
    }

    /** Additionally, every row has `m` entries: the constructors establish this,
        `add_column` breaks it and `set_row` keeps it only for a row of length `m`. */
    ghost predicate Shaped()
      reads this
    {
      Valid() && Uniform(data, m)
    }

    /** An `n` by `m` matrix of default (zero) entries. */
    constructor New(n: nat, m: nat)
      ensures Shaped() && this.n == n && this.m == m
      ensures forall r, c | 0 <= r < n && 0 <= c < m :: data[r][c] == 0
    {
      data := seq(n, _ => seq(m, _ => 0));
      this.n, this.m := n, m;
    }

    /** An `n` by `m` matrix whose entry at (r, c) is `f(r, c)`. */
    constructor NewWith(n: nat, m: nat, f: (nat, nat) --> int)
      requires forall r: nat, c: nat | r < n && c < m :: f.requires(r, c)
      ensures Shaped() && this.n == n && this.m == m
      ensures forall r, c | 0 <= r < n && 0 <= c < m :: data[r][c] == f(r, c)
    {
      data := Generate(n, m, f);
      this.n, this.m := n, m;
    }

    /** The struct literal: adopts `data` with the given counts, unchecked. */
    constructor Of(data: Grid, n: nat, m: nat)
      ensures this.data == data && this.n == n && this.m == m
    {
      this.data, this.n, this.m := data, n, m;
    }

    /** Adopts `v` as the rows of a new matrix, or `None` when `v` is empty or ragged. */
    static method FromVec(v: Grid) returns (r: Option<Mat2>)
      ensures r.None? <==> !Rectangular(v)
      ensures r.Some? ==> fresh(r.value) && r.value.Shaped()
      ensures r.Some? ==> r.value.data == v && r.value.n == |v| && r.value.m == |v[0]|
    {
      var n := |v|;
      if n == 0 {
        return None;
      }
      var l := |v[0]|;
      if forall k | 0 <= k < |v| :: |v[k]| == l {
        var mat := new Mat2.Of(v, n, l);
        r := Some(mat);
      } else {
        r := None;
      }
    }

    /** The dimensions, columns first: (m, n). */
    function GetDimension(): (dim: (nat, nat))
      reads this
      ensures Shaped() ==> dim.1 == |data| && Uniform(data, dim.0)
    {
      (m, n)
    }

    method SwapRows(i: nat, j: nat)
      requires i < |data| && j < |data|
      modifies this
      ensures data == Swapped(old(data), i, j) && n == old(n) && m == old(m)
      ensures old(Valid()) ==> Valid()
      ensures old(Shaped()) ==> Shaped()
    {
      var t := data[i];
      data := data[i := data[j]];
      data := data[j := t];
    }

    /** Replaces row `i` by `r`, whatever its length. */
    method SetRow(i: nat, r: seq<int>)
      requires i < |data|
      modifies this
      ensures data == old(data)[i := r] && n == old(n) && m == old(m)
      ensures old(Valid()) ==> Valid()
      ensures old(Shaped()) ==> (Shaped() <==> |r| == m)
    {
      data := data[i := r];
      assert data[i] == r;
    }

    function GetRow(i: nat): (r: seq<int>)
      reads this
      requires i < |data|
      ensures Shaped() ==> |r| == GetDimension().0
    {
      data[i]
    }

    function GetRowOpt(i: nat): (r: Option<seq<int>>)
      reads this
      ensures r.None? <==> i >= |data|
      ensures r.Some? ==> r.value == GetRow(i)
    {
      if i < |data| then Some(data[i]) else None
    }

    /** Appends `col[idx]` to row `idx` for every row; the cached `m` is left as it was. */
    method AddColumn(col: seq<int>)
      requires Valid() && |col| == n
      modifies this
      ensures data == WithColumn(old(data), col) && n == old(n) && m == old(m)
      ensures Valid()
      ensures old(Shaped()) ==> Uniform(data, m + 1)
      ensures old(Shaped()) && n > 0 ==> !Shaped()
    {
      var idx := 0;
      while idx < |col|
        invariant 0 <= idx <= |col| == |data| == n == old(n) && m == old(m)
        invariant forall r | 0 <= r < idx :: data[r] == old(data)[r] + [col[r]]
        invariant forall r | idx <= r < |data| :: data[r] == old(data)[r]
      {
        data := data[idx := data[idx] + [col[idx]]];
        idx := idx + 1;
      }
      assert old(Shaped()) && n > 0 ==> |data[0]| != m by {
        if n > 0 && old(Shaped()) {
          assert |old(data)[0]| == m;
        }
      }
    }

    /** As AddColumn, but also bringing the cached column count up to date. */
    method AddColumnSynced(col: seq<int>)
      requires Valid() && |col| == n
      modifies this
      ensures data == WithColumn(old(data), col) && n == old(n) && m == old(m) + 1
      ensures Valid()
      ensures old(Shaped()) ==> Shaped()
    {
      AddColumn(col);
      m := m + 1;
    }

    method RowIter() returns (it: RowIterator)
      ensures fresh(it) && it.mat == this && it.i == 0
    {
      it := new RowIterator(this);
    }

    method ScaleRow(i: nat, a: int)
      requires i < |data|
      modifies this
      ensures data == old(data)[i := Scaled(old(data)[i], a)] && n == old(n) && m == old(m)
      ensures old(Valid()) ==> Valid()
      ensures old(Shaped()) ==> Shaped()
    {
      var idx := 0;
      while idx < |data[i]|
        invariant |data| == |old(data)| && n == old(n) && m == old(m)
        invariant |data[i]| == |old(data)[i]| && 0 <= idx <= |data[i]|
        invariant forall k | 0 <= k < idx :: data[i][k] == old(data)[i][k] * a
        invariant forall k | idx <= k < |data[i]| :: data[i][k] == old(data)[i][k]
        invariant forall r | 0 <= r < |data| && r != i :: data[r] == old(data)[r]
      {
        data := data[i := data[i][idx := data[i][idx] * a]];
        idx := idx + 1;
      }
      assert data[i] == Scaled(old(data)[i], a);
    }

    /** Equality compares the rows only, not the cached counts. */
    predicate Eq(other: Mat2)
      reads this, other
    {
      data == other.data
    }

    /** Row `j` becomes `data[i] * a + data[j]`, truncated to the length of row `i`. */
    method AddScaled(i: nat, j: nat, a: int)
      requires i < |data| && j < |data| && |data[i]| <= |data[j]|
      modifies this
      ensures data == old(data)[j := ScaledSum(old(data)[i], old(data)[j], a)]
      ensures n == old(n) && m == old(m)
      ensures old(Valid()) ==> Valid()
      ensures old(Shaped()) ==> Shaped()
    {
      var src, dst := data[i], data[j];
      var r := seq(|src|, k requires 0 <= k < |src| => src[k] * a + dst[k]);
      SetRow(j, r);
    }
  }

  /** A cursor over the rows of `mat`. */
  class RowIterator {
    const mat: Mat2
    var i: nat

    constructor (mat: Mat2)
      ensures this.mat == mat && i == 0
    {
      this.mat := mat;
      i := 0;
    }

    /** The row under the cursor, or `None` past the last row; the cursor always advances. */
    method Next() returns (r: Option<seq<int>>)
      modifies this
      ensures r == mat.GetRowOpt(old(i)) && i == old(i) + 1
      ensures r.None? <==> old(i) >= |mat.data|
      ensures r.None? ==> i > |mat.data|
    {
      r := mat.GetRowOpt(i);
      i := i + 1;
    }
  }

  /** Applying the same swap twice gives back the original rows. */
  lemma SwappedTwice(d: Grid, i: nat, j: nat)
    requires i < |d| && j < |d|
    ensures Swapped(Swapped(d, i, j), i, j) == d
  {
  }

  /** `new(n, m)` and `new_with(n, m, |_, _| 0)` build the same rows. */
  lemma NewMatchesNewWith(n: nat, m: nat)
    ensures seq(n, _ => seq(m, _ => 0)) == Generate(n, m, (r: nat, c: nat) => 0)
  {
    var g := Generate(n, m, (r: nat, c: nat) => 0);
    forall r | 0 <= r < n
      ensures g[r] == seq(m, _ => 0)
    {
    }
  }

  /** Every rectangular row sequence is what `new_with` builds from its own entries. */
  lemma RectangularIsGenerated(v: Grid)
    requires Rectangular(v)
    ensures Generate(|v|, |v[0]|, (r: nat, c: nat) requires r < |v| && c < |v[r]| => v[r][c]) == v
  {
    var g := Generate(|v|, |v[0]|, (r: nat, c: nat) requires r < |v| && c < |v[r]| => v[r][c]);
    forall r | 0 <= r < |v|
      ensures g[r] == v[r]
    {
    }
  }

  /** Appending a column to a shaped grid leaves rows one entry longer than the old width. */
  lemma WithColumnOutgrowsWidth(d: Grid, col: seq<int>, w: nat)
    requires |col| == |d| && Uniform(d, w)
    ensures Uniform(WithColumn(d, col), w + 1)
    ensures |d| > 0 ==> !Uniform(WithColumn(d, col), w)
  {
    if |d| > 0 {
      assert |WithColumn(d, col)[0]| == |d[0]| + 1 == w + 1;
    }
  }

  /** Adding `a` times row `i` to row `j` and then `-a` times it restores row `j`. */
  lemma ScaledSumUndo(src: seq<int>, dst: seq<int>, a: int)
    requires |src| == |dst|
    ensures ScaledSum(src, ScaledSum(src, dst, a), -a) == dst
  {
  }

  /** On matrices with at least one row, equality of rows is equality of
      dimensions and of every entry. */
  lemma EqMeansSameDimensionAndEntries(a: Mat2, b: Mat2)
    requires a.Shaped() && b.Shaped() && a.n > 0
    ensures a.Eq(b) <==> (a.GetDimension() == b.GetDimension() &&
      forall r, c | 0 <= r < a.n && 0 <= c < a.m :: a.data[r][c] == b.data[r][c])
  {
    if a.GetDimension() == b.GetDimension() &&
      forall r, c | 0 <= r < a.n && 0 <= c < a.m :: a.data[r][c] == b.data[r][c]
    {
      forall r | 0 <= r < a.n
        ensures a.data[r] == b.data[r]
      {
        assert forall c | 0 <= c < a.m :: a.data[r][c] == b.data[r][c];
      }
    }
    if a.Eq(b) {
      assert |a.data[0]| == a.m && |b.data[0]| == b.m;
    }
  }

  /** Matrices without rows are equal whatever their cached column counts. */
  lemma EmptyMatricesAreEqual(a: Mat2, b: Mat2)
    requires a.Valid() && b.Valid() && a.n == 0 && b.n == 0
    ensures a.Eq(b)
  {
  }

  /** Equality is reflexive, symmetric and transitive. */
  lemma EqIsEquivalence(a: Mat2, b: Mat2, c: Mat2)
    ensures a.Eq(a)
    ensures a.Eq(b) ==> b.Eq(a)
    ensures a.Eq(b) && b.Eq(c) ==> a.Eq(c)
  {
  }
}
