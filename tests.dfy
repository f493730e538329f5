/** Clients that replay the unit tests of matrix.rs and system.rs against the
    contracts of the model alone. */
module MatrixTests {
  import opened Matrix
  import System

  method ConstructionCases() {
    var x := new Mat2.New(3, 2);
    var y := Mat2.FromVec([]);
    assert y == None;
    var z := new Mat2.NewWith(3, 2, (r: nat, c: nat) => 0);
    assert x.data == z.data by {
      forall r | 0 <= r < 3
        ensures x.data[r] == z.data[r]
      {
      }
    }
    assert x.Eq(z);
  }

  method DimensionCase() {
    var x := Mat2.FromVec([[1, 2], [3, 4]]);
    assert Rectangular([[1, 2], [3, 4]]);
    assert x.value.GetDimension() == (2, 2);
  }

  method SwapRowsCase() {
    var v := [[1, 2, 3], [4, 5, 6], [7, 8, 9]];
    assert Rectangular(v);
    var x := Mat2.FromVec(v);
    var mat := x.value;
    mat.SwapRows(0, 1);
    assert mat.GetRow(0) == [4, 5, 6];
    assert mat.GetRow(1) == [1, 2, 3];
    assert mat.GetRow(2) == [7, 8, 9];
    mat.SwapRows(0, 1);
    SwappedTwice(v, 0, 1);
    assert mat.data == v;
  }

  method GetRowCase() {
    var v := [[1, 2, 3], [4, 5, 6], [7, 8, 9]];
    assert Rectangular(v);
    var x := Mat2.FromVec(v);
    assert x.value.GetRow(0) == [1, 2, 3];
    assert x.value.GetRowOpt(3) == None;
  }

  method AddColumnCase() {
    var v := [[1, 2, 3], [4, 5, 6], [7, 8, 9]];
    assert Rectangular(v);
    var x := Mat2.FromVec(v);
    var mat := x.value;
    mat.AddColumn([0, 0, 0]);
    assert mat.GetRow(0) == [1, 2, 3, 0] by {
      assert mat.data[0][..3] == [1, 2, 3] && mat.data[0][3] == 0;
    }
    assert mat.GetDimension() == (3, 3);
  }

  method RowIterCase() {
    var v := [[1, 2, 3], [4, 5, 6], [7, 8, 9]];
    assert Rectangular(v);
    var x := Mat2.FromVec(v);
    var it := x.value.RowIter();
    var r := it.Next();
    assert r == Some([1, 2, 3]);
    r := it.Next();
    assert r == Some([4, 5, 6]);
    r := it.Next();
    assert r == Some([7, 8, 9]);
    r := it.Next();
    assert r == None;
    r := it.Next();
    assert r == None;
  }

  method ScaleRowCase() {
    assert Rectangular([[1, 1, 1]]);
    var x := Mat2.FromVec([[1, 1, 1]]);
    var mat := x.value;
    mat.ScaleRow(0, 3);
    assert mat.GetRow(0) == [3, 3, 3];
  }

  method AddScaledCase() {
    var v := [[1, 2, 3], [4, 5, 6], [7, 8, 9]];
    assert Rectangular(v);
    var x := Mat2.FromVec(v);
    var mat := x.value;
    mat.AddScaled(0, 1, 1);
    assert mat.GetRow(0) == [1, 2, 3];
    assert mat.GetRow(1) == [5, 7, 9];
  }

  method SubstituteCase() {
    var m := new Mat2.NewWith(2, 2, (r: nat, c: nat) => 1);
    assert m.data == [[1, 1], [1, 1]] by {
      assert m.data[0] == [1, 1] && m.data[1] == [1, 1];
    }
    var r := System.Substitute(m, [2, 3]);
    System.SubstituteAllOnes();
    assert Rectangular([[5], [5]]);
    var m2 := Mat2.FromVec([[5], [5]]);
    assert r.Eq(m2.value);
  }
}
