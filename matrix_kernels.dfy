// The loop nests behind `Matrix::transpose` and the `dot` family in
// src/core/Matrix.cpp, each proved to compute its mathematical result.
// AVX lanes and OpenMP threads are modelled as the sequential loops they
// parallelise; over the reals every summation order gives the same value.
module MatrixKernels {
  import opened Common
  import opened MatrixSpec

  /** One 2-D block of the cache-blocked transpose: dst(c, r) := src(r, c) for r in [i0, i1), c in [j0, j1). */
  method TransposeBlock(src: Mat, dst: Mat, i0: int, i1: int, j0: int, j1: int) returns (d: Mat)
    requires Wf(src) && Wf(dst) && dst.rows == src.cols && dst.cols == src.rows
    requires 0 <= i0 <= i1 <= src.rows && 0 <= j0 <= j1 <= src.cols
    ensures Wf(d) && d.rows == dst.rows && d.cols == dst.cols
    ensures forall r, c :: 0 <= r < src.rows && 0 <= c < src.cols ==>
      Get(d, c, r) == if i0 <= r < i1 && j0 <= c < j1 then Get(src, r, c) else Get(dst, c, r)
  {
    d := dst;
    var ii := i0;
    while ii < i1
      invariant i0 <= ii <= i1
      invariant Wf(d) && d.rows == dst.rows && d.cols == dst.cols
      invariant forall r, c :: 0 <= r < src.rows && 0 <= c < src.cols ==>
        Get(d, c, r) == if i0 <= r < ii && j0 <= c < j1 then Get(src, r, c) else Get(dst, c, r)
    {
      var jj := j0;
      while jj < j1
        invariant j0 <= jj <= j1
        invariant Wf(d) && d.rows == dst.rows && d.cols == dst.cols
        invariant forall r, c :: 0 <= r < src.rows && 0 <= c < src.cols ==>
          Get(d, c, r) == if (i0 <= r < ii && j0 <= c < j1) || (r == ii && j0 <= c < jj) then Get(src, r, c) else Get(dst, c, r)
      {
        d := Set(d, jj, ii, Get(src, ii, jj));
        jj := jj + 1;
      }
      ii := ii + 1;
    }
  }

  /** The cache-blocked transpose with square blocks of side `block`, written over `dst0`. */
  method BlockedTranspose(src: Mat, dst0: Mat, block: nat) returns (d: Mat)
    requires Wf(src) && Wf(dst0) && dst0.rows == src.cols && dst0.cols == src.rows && block > 0
    ensures d == Transposed(src)
  {
    var n, m := src.rows, src.cols;
    d := dst0;
    var i := 0;
    while i < n
      invariant 0 <= i
      invariant Wf(d) && d.rows == m && d.cols == n
      invariant forall r, c :: 0 <= r < n && 0 <= c < m && r < i ==> Get(d, c, r) == Get(src, r, c)
    {
      var j := 0;
      var iMax := Min(i + block, n);
      while j < m
        invariant 0 <= j
        invariant Wf(d) && d.rows == m && d.cols == n
        invariant forall r, c :: 0 <= r < n && 0 <= c < m && (r < i || (r < iMax && c < j)) ==> Get(d, c, r) == Get(src, r, c)
      {
        d := TransposeBlock(src, d, i, iMax, j, Min(j + block, m));
        j := j + block;
      }
      i := i + block;
    }
    Ext(d, Transposed(src));
  }

  /** The small-matrix path of `dot`: i-k-j order, accumulating into a zero matrix. */
  method ProductIkj(a: Mat, b: Mat) returns (c: Mat)
    requires Wf(a) && Wf(b) && a.cols == b.rows
    ensures c == Product(a, b)
  {
    c := Zeros(a.rows, b.cols);
    var i := 0;
    while i < a.rows
      invariant 0 <= i <= a.rows
      invariant Wf(c) && c.rows == a.rows && c.cols == b.cols
      invariant forall r, j :: 0 <= r < a.rows && 0 <= j < b.cols ==>
        Get(c, r, j) == if r < i then DotRange(a, b, r, j, 0, a.cols) else 0.0
    {
      c := ProductRow(a, b, c, i);
      i := i + 1;
    }
    Ext(c, Product(a, b));
  }

  /** Row i of the i-k-j product: for each k, row i grows by a(i, k) times row k of b. */
  method ProductRow(a: Mat, b: Mat, c0: Mat, i: int) returns (c: Mat)
    requires Wf(a) && Wf(b) && a.cols == b.rows && Wf(c0) && c0.rows == a.rows && c0.cols == b.cols
    requires 0 <= i < a.rows && forall j :: 0 <= j < b.cols ==> Get(c0, i, j) == 0.0
    ensures Wf(c) && c.rows == a.rows && c.cols == b.cols
    ensures forall r, j :: 0 <= r < a.rows && 0 <= j < b.cols ==>
      Get(c, r, j) == if r == i then DotRange(a, b, r, j, 0, a.cols) else Get(c0, r, j)
  {
    c := c0;
    var k := 0;
    while k < a.cols
      invariant 0 <= k <= a.cols
      invariant Wf(c) && c.rows == a.rows && c.cols == b.cols
      invariant forall r, j :: 0 <= r < a.rows && 0 <= j < b.cols ==>
        Get(c, r, j) == if r == i then DotRange(a, b, r, j, 0, k) else Get(c0, r, j)
    {
      c := AxpyRow(a, b, c, i, k);
      k := k + 1;
    }
  }

  /** The innermost j loop: c(i, j) += a(i, k) * b(k, j) for every j. */
  method AxpyRow(a: Mat, b: Mat, c0: Mat, i: int, k: int) returns (c: Mat)
    requires Wf(a) && Wf(b) && a.cols == b.rows && Wf(c0) && c0.rows == a.rows && c0.cols == b.cols
    requires 0 <= i < a.rows && 0 <= k < a.cols
    ensures Wf(c) && c.rows == a.rows && c.cols == b.cols
    ensures forall r, j :: 0 <= r < a.rows && 0 <= j < b.cols ==>
      Get(c, r, j) == if r == i then Get(c0, r, j) + Get(a, i, k) * Get(b, k, j) else Get(c0, r, j)
  {
    c := c0;
    var j := 0;
    while j < b.cols
      invariant 0 <= j <= b.cols
      invariant Wf(c) && c.rows == a.rows && c.cols == b.cols
      invariant forall r, q :: 0 <= r < a.rows && 0 <= q < b.cols ==>
        Get(c, r, q) == if r == i && q < j then Get(c0, r, q) + Get(a, i, k) * Get(b, k, q) else Get(c0, r, q)
    {
      var x := Get(a, i, k) * Get(b, k, j);
      c := Set(c, i, j, Get(c, i, j) + x);
      j := j + 1;
    }
  }

  /** The dot product of row i of a and row j of bt over k in [k0, k1), accumulated in increasing k. */
  method PartialDot(a: Mat, bt: Mat, i: int, j: int, k0: int, k1: int) returns (s: real)
    requires Wf(a) && Wf(bt) && a.cols == bt.cols
    requires 0 <= i < a.rows && 0 <= j < bt.rows && 0 <= k0 <= k1 <= a.cols
    ensures s == DotTRange(a, bt, i, j, k0, k1)
  {
    s := 0.0;
    var k := k0;
    while k < k1
      invariant k0 <= k <= k1
      invariant s == DotTRange(a, bt, i, j, k0, k)
    {
      s := s + Get(a, i, k) * Get(bt, j, k);
      k := k + 1;
    }
  }

  /** One row of the micro-kernel: cells (i, j) for j in [j0, j1) grow by their partial dot product. */
  method MicroRow(a: Mat, bt: Mat, c: Mat, i: int, j0: int, j1: int, k0: int, k1: int) returns (d: Mat)
    requires Wf(a) && Wf(bt) && Wf(c) && a.cols == bt.cols && c.rows == a.rows && c.cols == bt.rows
    requires 0 <= i < a.rows && 0 <= j0 <= j1 <= bt.rows && 0 <= k0 <= k1 <= a.cols
    ensures Wf(d) && d.rows == c.rows && d.cols == c.cols
    ensures forall r, q :: 0 <= r < c.rows && 0 <= q < c.cols ==>
      Get(d, r, q) == if r == i && j0 <= q < j1 then Get(c, r, q) + DotTRange(a, bt, r, q, k0, k1) else Get(c, r, q)
  {
    d := c;
    var j := j0;
    while j < j1
      invariant j0 <= j <= j1
      invariant Wf(d) && d.rows == c.rows && d.cols == c.cols
      invariant forall r, q :: 0 <= r < c.rows && 0 <= q < c.cols ==>
        Get(d, r, q) == if r == i && j0 <= q < j then Get(c, r, q) + DotTRange(a, bt, r, q, k0, k1) else Get(c, r, q)
    {
      var partial := PartialDot(a, bt, i, j, k0, k1);
      d := Set(d, i, j, Get(d, i, j) + partial);
      j := j + 1;
    }
  }

  /** The micro-kernel: every cell of the (i, j) block grows by its partial dot product over k in [k0, k1). */
  method MicroKernel(a: Mat, bt: Mat, c: Mat, i0: int, i1: int, j0: int, j1: int, k0: int, k1: int) returns (d: Mat)
    requires Wf(a) && Wf(bt) && Wf(c) && a.cols == bt.cols && c.rows == a.rows && c.cols == bt.rows
    requires 0 <= i0 <= i1 <= a.rows && 0 <= j0 <= j1 <= bt.rows && 0 <= k0 <= k1 <= a.cols
    ensures Wf(d) && d.rows == c.rows && d.cols == c.cols
    ensures forall i, j :: 0 <= i < c.rows && 0 <= j < c.cols ==>
      Get(d, i, j) == if i0 <= i < i1 && j0 <= j < j1 then Get(c, i, j) + DotTRange(a, bt, i, j, k0, k1) else Get(c, i, j)
  {
    d := c;
    var i := i0;
    while i < i1
      invariant i0 <= i <= i1
      invariant Wf(d) && d.rows == c.rows && d.cols == c.cols
      invariant forall r, q :: 0 <= r < c.rows && 0 <= q < c.cols ==>
        Get(d, r, q) == if i0 <= r < i && j0 <= q < j1 then Get(c, r, q) + DotTRange(a, bt, r, q, k0, k1) else Get(c, r, q)
    {
      d := MicroRow(a, bt, d, i, j0, j1, k0, k1);
      i := i + 1;
    }
  }

  /**
   * The blocked kernel shared by `dot` (large path and out-parameter form) and
   * `dotWithBTransposed`: adds a * transpose(bt) onto c0, block by block.
   */
  method BlockedProductT(a: Mat, bt: Mat, c0: Mat, block: nat) returns (c: Mat)
    requires Wf(a) && Wf(bt) && Wf(c0) && a.cols == bt.cols && c0.rows == a.rows && c0.cols == bt.rows
    requires block > 0
    ensures Wf(c) && c.rows == a.rows && c.cols == bt.rows
    ensures forall i, j :: 0 <= i < a.rows && 0 <= j < bt.rows ==>
      Get(c, i, j) == Get(c0, i, j) + DotTRange(a, bt, i, j, 0, a.cols)
  {
    var n, m, kd := a.rows, bt.rows, a.cols;
    c := c0;
    var ii := 0;
    while ii < n
      invariant 0 <= ii
      invariant Wf(c) && c.rows == n && c.cols == m
      invariant forall i, j :: 0 <= i < n && 0 <= j < m ==>
        Get(c, i, j) == if i < ii then Get(c0, i, j) + DotTRange(a, bt, i, j, 0, kd) else Get(c0, i, j)
    {
      var iMax := Min(ii + block, n);
      var jj := 0;
      while jj < m
        invariant 0 <= jj
        invariant Wf(c) && c.rows == n && c.cols == m
        invariant forall i, j :: 0 <= i < n && 0 <= j < m ==>
          Get(c, i, j) == if i < ii || (i < iMax && j < jj) then Get(c0, i, j) + DotTRange(a, bt, i, j, 0, kd) else Get(c0, i, j)
      {
        var jMax := Min(jj + block, m);
        var kk := 0;
        while kk < kd
          invariant 0 <= kk
          invariant Wf(c) && c.rows == n && c.cols == m
          invariant forall i, j :: 0 <= i < n && 0 <= j < m ==>
            Get(c, i, j) == if i < ii || (i < iMax && j < jj) then Get(c0, i, j) + DotTRange(a, bt, i, j, 0, kd)
                            else if ii <= i < iMax && jj <= j < jMax then Get(c0, i, j) + DotTRange(a, bt, i, j, 0, Min(kk, kd))
                            else Get(c0, i, j)
        {
          var kMax := Min(kk + block, kd);
          ghost var before := c;
          c := MicroKernel(a, bt, c, ii, iMax, jj, jMax, kk, kMax);
          forall i, j | ii <= i < iMax && jj <= j < jMax
            ensures Get(c, i, j) == Get(c0, i, j) + DotTRange(a, bt, i, j, 0, kMax)
          {
            DotTSplit(a, bt, i, j, 0, kk, kMax);
          }
          kk := kk + block;
        }
        jj := jj + block;
      }
      ii := ii + block;
    }
  }
}
