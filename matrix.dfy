// The dense matrix container of src/core/Matrix.cpp and
// include/talawa-ai/core/Matrix.hpp: a row-major `std::vector<float>` with its
// two dimensions. Operations that update the receiver (or an `out` argument)
// in place are methods that modify it; operations that return a new `Matrix`
// by value return its `Mat` value, since a C++ `Matrix` is copied by value.
module Matrices {
  import opened Common
  import opened MatrixSpec
  import opened MatrixKernels

  /** Cell count below which `dot` takes the unblocked i-k-j path. */
  const ThreadingThreshold := 10000
  /** Block side of the cache-blocked transposes. */
  const TransposeBlockSize := 32
  /** Block side of `dot`'s large path: max(16, rows_per_thread_min) with rows_per_thread_min = 16. */
  const DotBlockSize := 16
  /** Block side of the out-parameter `dot` and of both `dotWithBTransposed`. */
  const OutBlockSize := 64

  class Matrix {
    var rows: nat
    var cols: nat
    var data: seq<real>

    ghost predicate Valid()
      reads this
    {
      |data| == rows * cols
    }

    /** The matrix as a value. */
    function Value(): Mat
      reads this
    {
      Mat(rows, cols, data)
    }

    /** `Matrix()`: the 0 x 0 matrix. */
    constructor Empty()
      ensures Valid() && Value() == Mat(0, 0, [])
    {
      rows, cols, data := 0, 0, [];
    }

    /** `Matrix(rows, cols)`: every cell zero. */
    constructor Sized(r: nat, c: nat)
      ensures Valid() && Value() == Zeros(r, c)
    {
      rows, cols, data := r, c, Zeros(r, c).data;
    }

    /** The defaulted copy constructor. */
    constructor Copy(m: Mat)
      requires Wf(m)
      ensures Valid() && Value() == m
    {
      rows, cols, data := m.rows, m.cols, m.data;
    }

    /** Bounds-checked read `(*this)(row, col)`. */
    method At(row: int, col: int) returns (r: Result<real>)
      requires Valid()
      ensures r.Ok? <==> 0 <= row < rows && 0 <= col < cols
      ensures r.Ok? ==> r.value == Get(Value(), row, col)
    {
      if row < 0 || row >= rows || col < 0 || col >= cols {
        return Err("Matrix indices out of bounds");
      }
      FlatIndex(row, col, rows, cols);
      var x := data[row * cols + col];
      assert x == Get(Value(), row, col);
      return Ok(x);
    }

    /** Bounds-checked write through the reference `(*this)(row, col)`. */
    method Put(row: int, col: int, v: real) returns (r: Result<()>)
      requires Valid()
      modifies this
      ensures Valid() && rows == old(rows) && cols == old(cols)
      ensures r.Ok? <==> 0 <= row < rows && 0 <= col < cols
      ensures r.Ok? ==> Value() == Set(old(Value()), row, col, v)
      ensures r.Err? ==> Value() == old(Value())
    {
      if row < 0 || row >= rows || col < 0 || col >= cols {
        return Err("Matrix indices out of bounds");
      }
      data := Set(Value(), row, col, v).data;
      return Ok(());
    }

    /** `fill(value)`: every cell becomes `value`, the shape is kept. */
    method Fill(v: real)
      requires Valid()
      modifies this
      ensures Valid() && Value() == Const(old(rows), old(cols), v)
    {
      var i := 0;
      while i < |data|
        invariant 0 <= i <= |data| == rows * cols
        invariant rows == old(rows) && cols == old(cols)
        invariant forall k :: 0 <= k < i ==> data[k] == v
      {
        data := data[i := v];
        i := i + 1;
      }
      ConstFlat(rows, cols, v, data);
    }

    /** `operator=(const Matrix&)`: copies shape and cells; self-assignment does nothing. */
    method AssignFrom(other: Matrix)
      requires Valid() && other.Valid()
      modifies this
      ensures Valid() && Value() == old(other.Value())
    {
      if this == other { return; }
      if |data| != |other.data| {
        // std::vector::resize keeps the common prefix and zero-fills the rest.
        data := if |other.data| <= |data| then data[..|other.data|]
                else data + seq(|other.data| - |data|, _ => 0.0);
      }
      rows, cols := other.rows, other.cols;
      var i := 0;
      while i < |data|
        invariant 0 <= i <= |data| == |other.data|
        invariant rows == other.rows && cols == other.cols
        invariant forall k :: 0 <= k < i ==> data[k] == other.data[k]
      {
        data := data[i := other.data[i]];
        i := i + 1;
      }
    }

    /**
     * `operator=(const std::vector<std::vector<float>>&)`: empty input gives
     * 0 x 0, a jagged row throws before anything changes, otherwise the rows
     * are stored row-major.
     */
    method AssignRows(v: seq<seq<real>>) returns (r: Result<()>)
      requires Valid()
      modifies this
      ensures Valid()
      ensures |v| == 0 ==> r.Ok? && Value() == Mat(0, 0, [])
      ensures |v| > 0 && !Rectangular(v) ==> r.Err? && Value() == old(Value())
      ensures |v| > 0 && Rectangular(v) ==> r.Ok? && Value() == FromRows(v)
    {
      if |v| == 0 {
        rows, cols, data := 0, 0, [];
        return Ok(());
      }
      var w := |v[0]|;
      var i := 0;
      while i < |v|
        invariant 0 <= i <= |v|
        invariant forall q :: 0 <= q < i ==> |v[q]| == w
      {
        if |v[i]| != w {
          return Err("Cannot assign jagged array");
        }
        i := i + 1;
      }
      var d := FillRows(v);
      rows, cols, data := d.rows, d.cols, d.data;
      return Ok(());
    }

    /**
     * `Matrix(std::initializer_list<std::initializer_list<float>>)`: throws
     * on zero rows, zero columns or a jagged row, otherwise stores the rows
     * row-major.
     */
    static method Literal(v: seq<seq<real>>) returns (r: Result<Matrix>)
      ensures (|v| == 0 || |v[0]| == 0 || !Rectangular(v)) <==> r.Err?
      ensures r.Ok? ==> fresh(r.value) && r.value.Valid() && r.value.Value() == FromRows(v)
    {
      if |v| == 0 || |v[0]| == 0 {
        return Err("Matrix dimensions must be greater than 0");
      }
      var i := 0;
      while i < |v|
        invariant 0 <= i <= |v|
        invariant forall q :: 0 <= q < i ==> |v[q]| == |v[0]|
      {
        if |v[i]| != |v[0]| {
          return Err("All rows must have the same number of columns");
        }
        i := i + 1;
      }
      var d := FillRows(v);
      var m := new Matrix.Copy(d);
      return Ok(m);
    }

    /** `identity(size)`: a zero matrix with ones written down the diagonal. */
    static method IdentityOf(n: nat) returns (r: Mat)
      ensures r == Identity(n)
    {
      r := Zeros(n, n);
      var i := 0;
      while i < n
        invariant 0 <= i <= n
        invariant Wf(r) && r.rows == n && r.cols == n
        invariant forall p, q :: 0 <= p < n && 0 <= q < n ==> Get(r, p, q) == if p == q && p < i then 1.0 else 0.0
      {
        r := Set(r, i, i, 1.0);
        i := i + 1;
      }
      Ext(r, Identity(n));
    }

    /** `zeros(rows, cols)`: a new matrix filled with 0. */
    static method ZerosOf(r: nat, c: nat) returns (z: Mat)
      ensures Wf(z) && z.rows == r && z.cols == c
      ensures forall i, j :: 0 <= i < r && 0 <= j < c ==> Get(z, i, j) == 0.0
    {
      var m := new Matrix.Sized(r, c);
      m.Fill(0.0);
      z := m.Value();
    }

    /** `ones(rows, cols)`: a new matrix filled with 1. */
    static method OnesOf(r: nat, c: nat) returns (o: Mat)
      ensures Wf(o) && o.rows == r && o.cols == c
      ensures forall i, j :: 0 <= i < r && 0 <= j < c ==> Get(o, i, j) == 1.0
    {
      var m := new Matrix.Sized(r, c);
      m.Fill(1.0);
      o := m.Value();
    }

    /** `slice(start, end)`: rows [start, end) copied as one contiguous block. */
    method SliceRows(s: int, e: int) returns (r: Result<Mat>)
      requires Valid()
      ensures r.Err? <==> s < 0 || e > rows || s >= e
      ensures r.Ok? ==> 0 <= s < e <= rows && r.value == Slice(Value(), s, e)
    {
      if s < 0 || e > rows || s >= e {
        return Err("Matrix::slice indices out of bounds");
      }
      SliceOfBlock(Value(), s, e);
      return Ok(Mat(e - s, cols, data[s * cols .. e * cols]));
    }

    /** `transpose()`: a new cols x rows matrix written by the 32-blocked loops. */
    method Transpose() returns (t: Mat)
      requires Valid()
      ensures t == Transposed(Value())
    {
      t := BlockedTranspose(Value(), Zeros(cols, rows), TransposeBlockSize);
    }

    /** `transpose(out)`: `out` is replaced by a zero cols x rows matrix only when its shape is wrong, then overwritten. */
    method TransposeInto(out: Matrix)
      requires Valid() && out.Valid() && out != this
      modifies out
      ensures out.Valid() && out.Value() == Transposed(Value())
    {
      if out.rows != cols || out.cols != rows {
        out.rows, out.cols, out.data := cols, rows, Zeros(cols, rows).data;
      }
      var t := BlockedTranspose(Value(), out.Value(), TransposeBlockSize);
      out.data := t.data;
    }

    /**
     * `operator+=`: equal shapes add cell by cell; a 1 x cols right operand is
     * added to every row; any other shape throws and changes nothing. The
     * receiver's shape never changes.
     */
    method AddAssign(other: Matrix) returns (r: Result<()>)
      requires Valid() && other.Valid()
      modifies this
      ensures Valid() && rows == old(rows) && cols == old(cols)
      ensures old(rows) == other.rows && old(cols) == other.cols ==>
        r.Ok? && Value() == Added(old(Value()), old(other.Value()))
      ensures !(old(rows) == other.rows && old(cols) == other.cols) && other.rows == 1 && other.cols == old(cols) ==>
        r.Ok? && Value() == RowBroadcastAdded(old(Value()), old(other.Value()))
      ensures !(old(rows) == other.rows && old(cols) == other.cols) && !(other.rows == 1 && other.cols == old(cols)) ==>
        r.Err? && Value() == old(Value())
    {
      var b := other.Value();
      if rows == b.rows && cols == b.cols {
        var i := 0;
        while i < |data|
          invariant 0 <= i <= |data| == rows * cols
          invariant rows == old(rows) && cols == old(cols)
          invariant forall k :: 0 <= k < i ==> data[k] == old(data[k]) + b.data[k]
          invariant forall k :: i <= k < |data| ==> data[k] == old(data[k])
        {
          data := data[i := data[i] + b.data[i]];
          i := i + 1;
        }
        assert data == Added(old(Value()), b).data;
        return Ok(());
      } else if b.rows == 1 && b.cols == cols {
        var a := Value();
        var d := BroadcastRows(a, b);
        data := d.data;
        return Ok(());
      }
      return Err("Dimension mismatch for += operation");
    }

    /** `operator+`: a copy of the receiver with `+=` applied. */
    method Plus(other: Matrix) returns (r: Result<Mat>)
      requires Valid() && other.Valid()
      ensures rows == other.rows && cols == other.cols ==> r == Ok(Added(Value(), other.Value()))
      ensures !(rows == other.rows && cols == other.cols) && other.rows == 1 && other.cols == cols ==>
        r == Ok(RowBroadcastAdded(Value(), other.Value()))
      ensures !(rows == other.rows && cols == other.cols) && !(other.rows == 1 && other.cols == cols) ==> r.Err?
    {
      var result := new Matrix.Copy(Value());
      var added := result.AddAssign(other);
      if added.Err? { return Err(added.msg); }
      return Ok(result.Value());
    }

    /**
     * `operator-`: cell k of the result is cell k of the receiver minus cell k
     * of `other`, read flat with no shape check; `other` must hold at least as
     * many cells. For equal shapes this is the matrix difference.
     */
    method Minus(other: Matrix) returns (r: Mat)
      requires Valid() && other.Valid() && |data| <= |other.data|
      ensures Wf(r) && r.rows == rows && r.cols == cols
      ensures forall k :: 0 <= k < |r.data| ==> r.data[k] == data[k] - other.data[k]
      ensures other.rows == rows && other.cols == cols ==> r == Subtracted(Value(), other.Value())
    {
      var c := Zeros(rows, cols).data;
      var i := 0;
      while i < |data|
        invariant 0 <= i <= |data| == |c|
        invariant forall k :: 0 <= k < i ==> c[k] == data[k] - other.data[k]
      {
        c := c[i := data[i] - other.data[i]];
        i := i + 1;
      }
      r := Mat(rows, cols, c);
    }

    /** `operator*(scalar)`: every cell times the scalar. */
    method Times(s: real) returns (r: Mat)
      requires Valid()
      ensures r == Scaled(Value(), s)
    {
      var c := ScaleCells(data, s);
      r := Mat(rows, cols, c);
      ScaledFromCells(Value(), s, c);
    }

    /** `hadamard`: throws on any shape mismatch, otherwise multiplies cell by cell. */
    method Hadamard(other: Matrix) returns (r: Result<Mat>)
      requires Valid() && other.Valid()
      ensures r.Err? <==> rows != other.rows || cols != other.cols
      ensures r.Ok? ==> r.value == HadamardOf(Value(), other.Value())
    {
      if rows != other.rows || cols != other.cols {
        return Err("Dimension mismatch for Hadamard product.");
      }
      var c := MultiplyCells(data, other.data);
      HadamardFromCells(Value(), other.Value(), c);
      return Ok(Mat(rows, cols, c));
    }

    /** `operator==`: false on a shape mismatch, cell-by-cell equality otherwise. */
    method Equals(other: Matrix) returns (b: bool)
      requires Valid() && other.Valid()
      ensures b <==> Value() == other.Value()
    {
      if rows != other.rows || cols != other.cols {
        return false;
      }
      var i := 0;
      while i < |data|
        invariant 0 <= i <= |data| == |other.data|
        invariant data[..i] == other.data[..i]
      {
        if data[i] != other.data[i] {
          return false;
        }
        i := i + 1;
      }
      assert data == data[..i];
      return true;
    }

    /**
     * `dot(other)`: throws when cols != other.rows. Below 10 000
     * multiply-adds it accumulates in i-k-j order; above, it transposes
     * `other` and runs the 16-blocked kernel. Both paths give the product.
     */
    method Dot(other: Matrix) returns (r: Result<Mat>)
      requires Valid() && other.Valid()
      ensures r.Err? <==> cols != other.rows
      ensures r.Ok? ==> r.value == Product(Value(), other.Value())
    {
      if cols != other.rows {
        return Err("Dimension mismatch for dot product");
      }
      var a, b := Value(), other.Value();
      var ops := rows * cols * other.cols;
      if ops < ThreadingThreshold {
        var c := ProductIkj(a, b);
        return Ok(c);
      }
      var bt := BlockedTranspose(b, Zeros(b.cols, b.rows), TransposeBlockSize);
      var c := BlockedProductT(a, bt, Zeros(a.rows, b.cols), DotBlockSize);
      ProductOfBlocked(a, b, bt, c);
      return Ok(c);
    }

    /**
     * `dot(other, out)`: throws when cols != other.rows; otherwise `out` is
     * replaced by a zero matrix only when its shape is wrong, zero-filled,
     * and the 64-blocked kernel accumulates the product into it.
     */
    method DotInto(other: Matrix, out: Matrix) returns (r: Result<()>)
      requires Valid() && other.Valid() && out.Valid() && out != this && out != other
      modifies out
      ensures out.Valid()
      ensures r.Err? <==> cols != other.rows
      ensures r.Err? ==> out.Value() == old(out.Value())
      ensures r.Ok? ==> out.Value() == Product(Value(), other.Value())
    {
      if cols != other.rows {
        return Err("Dimension mismatch for dot product");
      }
      if out.rows != rows || out.cols != other.cols {
        out.rows, out.cols, out.data := rows, other.cols, Zeros(rows, other.cols).data;
      }
      out.Fill(0.0);
      var a, b := Value(), other.Value();
      var bt := BlockedTranspose(b, Zeros(b.cols, b.rows), TransposeBlockSize);
      var c := BlockedProductT(a, bt, out.Value(), OutBlockSize);
      ProductOfBlocked(a, b, bt, c);
      out.data := c.data;
      return Ok(());
    }

    /** `dotWithBTransposed(B_T)`: throws when cols != B_T.cols, otherwise the product with the transpose of B_T. */
    method DotWithBTransposed(bt: Matrix) returns (r: Result<Mat>)
      requires Valid() && bt.Valid()
      ensures r.Err? <==> cols != bt.cols
      ensures r.Ok? ==> r.value == Product(Value(), Transposed(bt.Value()))
    {
      if cols != bt.cols {
        return Err("Dimension mismatch for dotWithBTransposed");
      }
      var a, b := Value(), bt.Value();
      var c := BlockedProductT(a, b, Zeros(a.rows, b.rows), OutBlockSize);
      ProductTOfBlocked(a, b, c);
      return Ok(c);
    }

    /** `dotWithBTransposed(B_T, out)`: the out-parameter form, zero-filling `out` first. */
    method DotWithBTransposedInto(bt: Matrix, out: Matrix) returns (r: Result<()>)
      requires Valid() && bt.Valid() && out.Valid() && out != this && out != bt
      modifies out
      ensures out.Valid()
      ensures r.Err? <==> cols != bt.cols
      ensures r.Err? ==> out.Value() == old(out.Value())
      ensures r.Ok? ==> out.Value() == Product(Value(), Transposed(bt.Value()))
    {
      if cols != bt.cols {
        return Err("Dimension mismatch for dotWithBTransposed");
      }
      if out.rows != rows || out.cols != bt.rows {
        out.rows, out.cols, out.data := rows, bt.rows, Zeros(rows, bt.rows).data;
      }
      out.Fill(0.0);
      var a, b := Value(), bt.Value();
      var c := BlockedProductT(a, b, out.Value(), OutBlockSize);
      ProductTOfBlocked(a, b, c);
      out.data := c.data;
      return Ok(());
    }

    /** `addVector(v)`: throws unless v is 1 x cols, otherwise adds v to every row of a copy. */
    method AddVector(v: Matrix) returns (r: Result<Mat>)
      requires Valid() && v.Valid()
      ensures r.Err? <==> v.rows != 1 || v.cols != cols
      ensures r.Ok? ==> r.value == RowBroadcastAdded(Value(), v.Value())
    {
      if v.rows != 1 || v.cols != cols {
        return Err("Dimension mismatch for addVector operation.");
      }
      var result := new Matrix.Copy(Value());
      var added := result.AddAssign(v);
      if rows == 1 {
        AddedOneRow(Value(), v.Value());
      }
      return Ok(result.Value());
    }

    /**
     * `sumRows(out)`: adds the column totals into the first cols flat cells
     * of `out` without clearing them first; `out` is not checked, so it must
     * hold at least cols cells.
     */
    method SumRows(out: Matrix)
      requires Valid() && out.Valid() && out != this && cols <= |out.data|
      modifies out
      ensures out.Valid() && out.Value() == SumRowsInto(old(out.Value()), Value())
    {
      var base, m := out.Value(), Value();
      var acc := base.data;
      var i := 0;
      while i < m.rows
        invariant 0 <= i <= m.rows && |acc| == |base.data|
        invariant out.Value() == base
        invariant forall k :: 0 <= k < |acc| ==>
          acc[k] == if k < m.cols then base.data[k] + ColSum(m, k, i) else base.data[k]
      {
        acc := AddRow(m, acc, i, base.data);
        i := i + 1;
      }
      out.data := acc;
      SumRowsFromCells(base, m, acc);
    }

    /** `apply(func)`: every cell, in row-major order, becomes func(i, j, cell); the shape is kept. */
    method Apply(f: (int, int, real) -> real)
      requires Valid()
      modifies this
      ensures Valid() && Value() == Applied(old(Value()), f)
    {
      var m := Value();
      var i := 0;
      while i < rows
        invariant 0 <= i <= rows
        invariant Valid() && rows == m.rows && cols == m.cols
        invariant forall p, q :: 0 <= p < rows && 0 <= q < cols ==>
          Get(Value(), p, q) == if p < i then f(p, q, Get(m, p, q)) else Get(m, p, q)
      {
        var j := 0;
        while j < cols
          invariant 0 <= j <= cols
          invariant Valid() && rows == m.rows && cols == m.cols
          invariant forall p, q :: 0 <= p < rows && 0 <= q < cols ==>
            Get(Value(), p, q) == if p < i || (p == i && q < j) then f(p, q, Get(m, p, q)) else Get(m, p, q)
        {
          data := Set(Value(), i, j, f(i, j, Get(Value(), i, j))).data;
          j := j + 1;
        }
        i := i + 1;
      }
      Ext(Value(), Applied(m, f));
    }

    /**
     * `map(func)` as written: it builds a zero matrix of the receiver's shape
     * and applies func to it, so func sees 0 in every cell instead of the
     * receiver's value.
     */
    method MapAsWritten(f: (int, int, real) -> real) returns (r: Mat)
      requires Valid()
      ensures r == Applied(Zeros(rows, cols), f)
    {
      var result := new Matrix.Sized(rows, cols);
      result.Apply(f);
      r := result.Value();
    }

    /** `map(func)` as intended: func applied to a copy of the receiver, which is left unchanged. */
    method Map(f: (int, int, real) -> real) returns (r: Mat)
      requires Valid()
      ensures r == Applied(Value(), f)
    {
      var result := new Matrix.Copy(Value());
      result.Apply(f);
      r := result.Value();
    }

    /** `reduce(func, initial)`: a left fold over the cells in row-major order. */
    method Reduce<T>(f: (T, int, int, real) -> T, init: T) returns (acc: T)
      requires Valid()
      ensures acc == Reduced(Value(), f, init)
    {
      var m := Value();
      acc := init;
      var i := 0;
      while i < rows
        invariant 0 <= i <= rows
        invariant cols == 0 ==> acc == init
        invariant cols > 0 ==> i * cols <= |data| && acc == FoldCells(m, f, init, i * cols)
      {
        var j := 0;
        while j < cols
          invariant 0 <= j <= cols
          invariant cols == 0 ==> acc == init
          invariant cols > 0 ==> i * cols + j <= |data| && acc == FoldCells(m, f, init, i * cols + j)
        {
          FlatIndex(i, j, rows, cols);
          DivModOf(i, j, cols);
          acc := f(acc, i, j, Get(m, i, j));
          j := j + 1;
        }
        assert i * cols + cols == (i + 1) * cols;
        i := i + 1;
      }
      if cols > 0 {
        assert rows * cols == |data|;
      }
    }
  }

  // ------------------------------------------------------------------ helpers

  /** The nested rows written cell by cell into a zero matrix of their shape. */
  method FillRows(v: seq<seq<real>>) returns (d: Mat)
    requires |v| > 0 && Rectangular(v)
    ensures d == FromRows(v)
  {
    var w := |v[0]|;
    d := Zeros(|v|, w);
    var i := 0;
    while i < |v|
      invariant 0 <= i <= |v|
      invariant Wf(d) && d.rows == |v| && d.cols == w
      invariant forall p, q :: 0 <= p < |v| && 0 <= q < w ==> Get(d, p, q) == if p < i then v[p][q] else 0.0
    {
      var j := 0;
      while j < w
        invariant 0 <= j <= w
        invariant Wf(d) && d.rows == |v| && d.cols == w
        invariant forall p, q :: 0 <= p < |v| && 0 <= q < w ==>
          Get(d, p, q) == if p < i || (p == i && q < j) then v[p][q] else 0.0
      {
        d := Set(d, i, j, v[i][j]);
        j := j + 1;
      }
      i := i + 1;
    }
    Ext(d, FromRows(v));
  }

  /** The broadcast branch of `+=`: row vector b added to every row of a, row by row. */
  method BroadcastRows(a: Mat, b: Mat) returns (d: Mat)
    requires Wf(a) && Wf(b) && b.rows == 1 && b.cols == a.cols
    ensures d == RowBroadcastAdded(a, b)
  {
    d := a;
    var i := 0;
    while i < a.rows
      invariant 0 <= i <= a.rows
      invariant Wf(d) && d.rows == a.rows && d.cols == a.cols
      invariant forall p, q :: 0 <= p < a.rows && 0 <= q < a.cols ==>
        Get(d, p, q) == if p < i then Get(a, p, q) + Get(b, 0, q) else Get(a, p, q)
    {
      var j := 0;
      while j < a.cols
        invariant 0 <= j <= a.cols
        invariant Wf(d) && d.rows == a.rows && d.cols == a.cols
        invariant forall p, q :: 0 <= p < a.rows && 0 <= q < a.cols ==>
          Get(d, p, q) == if p < i || (p == i && q < j) then Get(a, p, q) + Get(b, 0, q) else Get(a, p, q)
      {
        d := Set(d, i, j, Get(d, i, j) + Get(b, 0, j));
        j := j + 1;
      }
      i := i + 1;
    }
    Ext(d, RowBroadcastAdded(a, b));
  }

  /** The flat loop of `operator*(scalar)`: a zero buffer overwritten with d[k]·s. */
  method ScaleCells(d: seq<real>, s: real) returns (c: seq<real>)
    ensures |c| == |d| && forall k :: 0 <= k < |d| ==> c[k] == d[k] * s
  {
    c := seq(|d|, k => 0.0);
    var i := 0;
    while i < |d|
      invariant 0 <= i <= |d| == |c|
      invariant forall k :: 0 <= k < i ==> c[k] == d[k] * s
    {
      var x := d[i] * s;
      c := c[i := x];
      i := i + 1;
    }
  }

  /** The flat loop of `hadamard`: a zero buffer overwritten with d[k]·e[k]. */
  method MultiplyCells(d: seq<real>, e: seq<real>) returns (c: seq<real>)
    requires |e| == |d|
    ensures |c| == |d| && forall k :: 0 <= k < |d| ==> c[k] == d[k] * e[k]
  {
    c := seq(|d|, k => 0.0);
    var i := 0;
    while i < |d|
      invariant 0 <= i <= |d| == |c|
      invariant forall k :: 0 <= k < i ==> c[k] == d[k] * e[k]
    {
      var x := d[i] * e[i];
      c := c[i := x];
      i := i + 1;
    }
  }

  /** One row of `sumRows`: flat cell j of the accumulator grows by a(i, j) for j < cols. */
  method AddRow(a: Mat, acc0: seq<real>, i: int, base: seq<real>) returns (acc: seq<real>)
    requires Wf(a) && 0 <= i < a.rows && a.cols <= |acc0| == |base|
    requires forall k :: 0 <= k < |acc0| ==>
      acc0[k] == if k < a.cols then base[k] + ColSum(a, k, i) else base[k]
    ensures |acc| == |acc0|
    ensures forall k :: 0 <= k < |acc| ==>
      acc[k] == if k < a.cols then base[k] + ColSum(a, k, i + 1) else base[k]
  {
    acc := acc0;
    var j := 0;
    while j < a.cols
      invariant 0 <= j <= a.cols && |acc| == |acc0|
      invariant forall k :: 0 <= k < |acc| ==>
        acc[k] == if k < j then base[k] + ColSum(a, k, i + 1)
                  else if k < a.cols then base[k] + ColSum(a, k, i)
                  else base[k]
    {
      acc := acc[j := acc[j] + Get(a, i, j)];
      j := j + 1;
    }
  }

  /** The blocked kernel over the transpose of b, started from zero, computes the product a * b. */
  lemma ProductOfBlocked(a: Mat, b: Mat, bt: Mat, c: Mat)
    requires Wf(a) && Wf(b) && a.cols == b.rows && bt == Transposed(b)
    requires Wf(c) && c.rows == a.rows && c.cols == b.cols
    requires forall i, j :: 0 <= i < a.rows && 0 <= j < b.cols ==>
      Get(c, i, j) == Get(Zeros(a.rows, b.cols), i, j) + DotTRange(a, bt, i, j, 0, a.cols)
    ensures c == Product(a, b)
  {
    forall i, j | 0 <= i < a.rows && 0 <= j < b.cols ensures Get(c, i, j) == Get(Product(a, b), i, j) {
      DotTOfTransposed(a, b, bt, i, j, 0, a.cols);
    }
    Ext(c, Product(a, b));
  }

  /** The blocked kernel over a pre-transposed bt, started from zero, computes a * transpose(bt). */
  lemma ProductTOfBlocked(a: Mat, bt: Mat, c: Mat)
    requires Wf(a) && Wf(bt) && a.cols == bt.cols
    requires Wf(c) && c.rows == a.rows && c.cols == bt.rows
    requires forall i, j :: 0 <= i < a.rows && 0 <= j < bt.rows ==>
      Get(c, i, j) == Get(Zeros(a.rows, bt.rows), i, j) + DotTRange(a, bt, i, j, 0, a.cols)
    ensures c == Product(a, Transposed(bt))
  {
    Ext(c, ProductT(a, bt));
    ProductTIsProduct(a, bt);
  }

  /** For a one-row receiver the two branches of `+=` agree, so `addVector` is the broadcast either way. */
  lemma AddedOneRow(a: Mat, v: Mat)
    requires Wf(a) && Wf(v) && a.rows == 1 && v.rows == 1 && v.cols == a.cols
    ensures Added(a, v) == RowBroadcastAdded(a, v)
  {
    Ext(Added(a, v), RowBroadcastAdded(a, v));
  }

  /** `map` as written ignores the receiver: mapping the identity over [[5]] gives [[0]], not [[5]]. */
  lemma MapAsWrittenLosesCells()
    ensures Applied(Zeros(1, 1), (i, j, x) => x) == Mat(1, 1, [0.0])
    ensures Applied(Mat(1, 1, [5.0]), (i, j, x) => x) == Mat(1, 1, [5.0])
  {
    var id := (i: int, j: int, x: real) => x;
    Ext(Applied(Zeros(1, 1), id), Mat(1, 1, [0.0]));
    Ext(Applied(Mat(1, 1, [5.0]), id), Mat(1, 1, [5.0]));
  }

  /** A dot product over three terms, written out. */
  lemma DotRangeThree(a: Mat, b: Mat, i: int, j: int)
    requires Wf(a) && Wf(b) && a.cols == b.rows == 3 && 0 <= i < a.rows && 0 <= j < b.cols
    ensures DotRange(a, b, i, j, 0, 3) == Get(a, i, 0) * Get(b, 0, j) + Get(a, i, 1) * Get(b, 1, j) + Get(a, i, 2) * Get(b, 2, j)
  {
    assert DotRange(a, b, i, j, 0, 1) == Get(a, i, 0) * Get(b, 0, j);
  }

  const ExampleA: Mat := Mat(2, 3, [1.0, 2.0, 3.0, 4.0, 5.0, 6.0])
  const ExampleB: Mat := Mat(3, 2, [7.0, 8.0, 9.0, 1.0, 2.0, 3.0])
  const ExampleC: Mat := Mat(2, 2, [31.0, 19.0, 85.0, 55.0])

  /** The worked example of the matrix tests: [[1,2,3],[4,5,6]] . [[7,8],[9,1],[2,3]] = [[31,19],[85,55]]. */
  lemma ProductExample()
    ensures Product(ExampleA, ExampleB) == ExampleC
  {
    forall i, j | 0 <= i < 2 && 0 <= j < 2 ensures Get(Product(ExampleA, ExampleB), i, j) == Get(ExampleC, i, j) {
      ProductExampleCell(i, j);
    }
    Ext(Product(ExampleA, ExampleB), ExampleC);
  }

  lemma ProductExampleCell(i: int, j: int)
    requires 0 <= i < 2 && 0 <= j < 2
    ensures Get(Product(ExampleA, ExampleB), i, j) == Get(ExampleC, i, j)
  {
    var a, b, c := ExampleA, ExampleB, ExampleC;
    DotRangeThree(a, b, i, j);
    if i == 0 {
      assert Get(a, 0, 0) == 1.0 && Get(a, 0, 1) == 2.0 && Get(a, 0, 2) == 3.0;
    } else {
      assert Get(a, 1, 0) == 4.0 && Get(a, 1, 1) == 5.0 && Get(a, 1, 2) == 6.0;
    }
    if j == 0 {
      assert Get(b, 0, 0) == 7.0 && Get(b, 1, 0) == 9.0 && Get(b, 2, 0) == 2.0;
    } else {
      assert Get(b, 0, 1) == 8.0 && Get(b, 1, 1) == 1.0 && Get(b, 2, 1) == 3.0;
    }
    assert Get(c, 0, 0) == 31.0 && Get(c, 0, 1) == 19.0 && Get(c, 1, 0) == 85.0 && Get(c, 1, 1) == 55.0;
  }
}
