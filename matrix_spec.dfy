// Mathematical meaning of a dense row-major matrix: a value with a shape and
// a flat cell sequence, and the functions that the imperative `Matrix`
// operations are proved against.
module MatrixSpec {

  /** A `rows` x `cols` matrix stored row-major: cell (i, j) is `data[i*cols+j]`. */
  datatype Mat = Mat(rows: nat, cols: nat, data: seq<real>)

  ghost predicate Wf(m: Mat) { |m.data| == m.rows * m.cols }

  lemma MulMono(a: nat, b: nat, c: nat)
    requires a <= b
    ensures a * c <= b * c
  {}

  lemma FlatIndex(i: nat, j: nat, r: nat, c: nat)
    requires i < r && j < c
    ensures i * c + j < r * c
  {
    MulMono(i + 1, r, c);
  }

  lemma FlatInjective(i: nat, j: nat, i2: nat, j2: nat, c: nat)
    requires j < c && j2 < c && i * c + j == i2 * c + j2
    ensures i == i2 && j == j2
  {
    if i < i2 { MulMono(i + 1, i2, c); }
    else if i2 < i { MulMono(i2 + 1, i, c); }
  }

  lemma DivMod(k: nat, c: nat)
    requires c > 0
    ensures k == (k / c) * c + k % c && k % c < c
  {}

  lemma DivModOf(i: nat, j: nat, c: nat)
    requires j < c
    ensures (i * c + j) / c == i && (i * c + j) % c == j
  {
    DivMod(i * c + j, c);
    FlatInjective(i, j, (i * c + j) / c, (i * c + j) % c, c);
  }

  /** Cell (i, j). */
  function Get(m: Mat, i: int, j: int): real
    requires Wf(m) && 0 <= i < m.rows && 0 <= j < m.cols
  {
    FlatIndex(i, j, m.rows, m.cols);
    m.data[i * m.cols + j]
  }

  lemma SetCell(d: seq<real>, rows: nat, c: nat, i: nat, j: nat, i2: nat, j2: nat, v: real)
    requires |d| == rows * c && i < rows && j < c && i2 < rows && j2 < c
    ensures i * c + j < |d| && i2 * c + j2 < |d|
    ensures d[i * c + j := v][i2 * c + j2] == if i2 == i && j2 == j then v else d[i2 * c + j2]
  {
    FlatIndex(i, j, rows, c);
    FlatIndex(i2, j2, rows, c);
    if i * c + j == i2 * c + j2 { FlatInjective(i, j, i2, j2, c); }
  }

  /** The matrix with cell (i, j) replaced by v: exactly one cell changes. */
  function Set(m: Mat, i: int, j: int, v: real): (r: Mat)
    requires Wf(m) && 0 <= i < m.rows && 0 <= j < m.cols
    ensures Wf(r) && r.rows == m.rows && r.cols == m.cols
    ensures forall i2, j2 :: 0 <= i2 < m.rows && 0 <= j2 < m.cols ==>
      Get(r, i2, j2) == if i2 == i && j2 == j then v else Get(m, i2, j2)
  {
    FlatIndex(i, j, m.rows, m.cols);
    var r := m.(data := m.data[i * m.cols + j := v]);
    forall i2, j2 | 0 <= i2 < m.rows && 0 <= j2 < m.cols
      ensures Get(r, i2, j2) == if i2 == i && j2 == j then v else Get(m, i2, j2)
    {
      SetCell(m.data, m.rows, m.cols, i, j, i2, j2, v);
    }
    r
  }

  /** The r x c matrix whose cell (i, j) is f(i, j). */
  function Tabulate(r: nat, c: nat, f: (int, int) -> real): (m: Mat)
    ensures Wf(m) && m.rows == r && m.cols == c
    ensures forall i, j :: 0 <= i < r && 0 <= j < c ==> Get(m, i, j) == f(i, j)
  {
    var m := Mat(r, c, seq(r * c, k requires 0 <= k < r * c => f(k / c, k % c)));
    forall i, j | 0 <= i < r && 0 <= j < c ensures Get(m, i, j) == f(i, j) {
      FlatIndex(i, j, r, c);
      DivModOf(i, j, c);
    }
    m
  }

  /** Two well-formed matrices of one shape are equal when all their cells are. */
  lemma Ext(a: Mat, b: Mat)
    requires Wf(a) && Wf(b) && a.rows == b.rows && a.cols == b.cols
    requires forall i, j :: 0 <= i < a.rows && 0 <= j < a.cols ==> Get(a, i, j) == Get(b, i, j)
    ensures a == b
  {
    forall k | 0 <= k < |a.data| ensures a.data[k] == b.data[k] {
      FlatSplit(k, a.rows, a.cols);
      assert Get(a, k / a.cols, k % a.cols) == Get(b, k / a.cols, k % a.cols);
    }
  }

  /** Flat index k of an r x c buffer is cell (k / c, k % c). */
  lemma FlatSplit(k: nat, r: nat, c: nat)
    requires k < r * c
    ensures c > 0 && k / c < r && k % c < c && (k / c) * c + k % c == k
  {
    DivMod(k, c);
    if r <= k / c { MulMono(r, k / c, c); }
  }

  // ---------------------------------------------------------------- builders

  /** Every cell holds v. */
  function Const(r: nat, c: nat, v: real): (m: Mat)
    ensures Wf(m) && m.rows == r && m.cols == c
    ensures forall i, j :: 0 <= i < r && 0 <= j < c ==> Get(m, i, j) == v
  {
    Tabulate(r, c, (i, j) => v)
  }

  /** A buffer of r*c copies of v is the constant matrix. */
  lemma ConstFlat(r: nat, c: nat, v: real, d: seq<real>)
    requires |d| == r * c && forall k :: 0 <= k < |d| ==> d[k] == v
    ensures Mat(r, c, d) == Const(r, c, v)
  {
    forall i, j | 0 <= i < r && 0 <= j < c ensures Get(Mat(r, c, d), i, j) == v {
      FlatIndex(i, j, r, c);
    }
    Ext(Mat(r, c, d), Const(r, c, v));
  }

  function Zeros(r: nat, c: nat): (m: Mat)
    ensures Wf(m) && m.rows == r && m.cols == c
    ensures forall i, j :: 0 <= i < r && 0 <= j < c ==> Get(m, i, j) == 0.0
  {
    Const(r, c, 0.0)
  }

  /** The n x n identity. */
  function Identity(n: nat): (m: Mat)
    ensures Wf(m) && m.rows == n && m.cols == n
    ensures forall i, j :: 0 <= i < n && 0 <= j < n ==> Get(m, i, j) == if i == j then 1.0 else 0.0
  {
    Tabulate(n, n, (i, j) => if i == j then 1.0 else 0.0)
  }

  /** Every row of a nested literal has the first row's length. */
  predicate Rectangular(v: seq<seq<real>>)
  {
    forall i :: 0 <= i < |v| ==> |v[i]| == |v[0]|
  }

  /** The matrix that stores a rectangular nested literal row-major. */
  function FromRows(v: seq<seq<real>>): (m: Mat)
    requires Rectangular(v)
    ensures Wf(m) && m.rows == |v| && m.cols == (if |v| == 0 then 0 else |v[0]|)
    ensures forall i, j :: 0 <= i < m.rows && 0 <= j < m.cols ==> Get(m, i, j) == v[i][j]
  {
    var w := if |v| == 0 then 0 else |v[0]|;
    Tabulate(|v|, w, (i, j) => if 0 <= i < |v| && 0 <= j < |v[i]| then v[i][j] else 0.0)
  }

  // ------------------------------------------------------------ element-wise

  /** A matrix computed position by position from two of its shape holds, in every cell, `op` of their cells. */
  lemma FlatCells(a: Mat, b: Mat, c: Mat, op: (real, real) -> real)
    requires Wf(a) && Wf(b) && Wf(c) && b.rows == a.rows && b.cols == a.cols && c.rows == a.rows && c.cols == a.cols
    requires forall k :: 0 <= k < |c.data| ==> c.data[k] == op(a.data[k], b.data[k])
    ensures forall i, j :: 0 <= i < a.rows && 0 <= j < a.cols ==> Get(c, i, j) == op(Get(a, i, j), Get(b, i, j))
  {
    forall i, j | 0 <= i < a.rows && 0 <= j < a.cols
      ensures Get(c, i, j) == op(Get(a, i, j), Get(b, i, j))
    {
      FlatIndex(i, j, a.rows, a.cols);
    }
  }

  function Transposed(m: Mat): (t: Mat)
    requires Wf(m)
    ensures Wf(t) && t.rows == m.cols && t.cols == m.rows
    ensures forall i, j :: 0 <= i < m.rows && 0 <= j < m.cols ==> Get(t, j, i) == Get(m, i, j)
  {
    Tabulate(m.cols, m.rows, (j, i) => if 0 <= i < m.rows && 0 <= j < m.cols then Get(m, i, j) else 0.0)
  }

  lemma TransposeInvolution(m: Mat)
    requires Wf(m)
    ensures Transposed(Transposed(m)) == m
  {
    Ext(Transposed(Transposed(m)), m);
  }

  function Added(a: Mat, b: Mat): (c: Mat)
    requires Wf(a) && Wf(b) && a.rows == b.rows && a.cols == b.cols
    ensures Wf(c) && c.rows == a.rows && c.cols == a.cols
    ensures forall i, j :: 0 <= i < a.rows && 0 <= j < a.cols ==> Get(c, i, j) == Get(a, i, j) + Get(b, i, j)
  {
    var c := Mat(a.rows, a.cols, seq(|a.data|, k requires 0 <= k < |a.data| => a.data[k] + b.data[k]));
    FlatCells(a, b, c, (x: real, y: real) => x + y);
    c
  }

  /** `a` with the 1 x cols row `v` added to every row. */
  function RowBroadcastAdded(a: Mat, v: Mat): (c: Mat)
    requires Wf(a) && Wf(v) && v.rows == 1 && v.cols == a.cols
    ensures Wf(c) && c.rows == a.rows && c.cols == a.cols
    ensures forall i, j :: 0 <= i < a.rows && 0 <= j < a.cols ==> Get(c, i, j) == Get(a, i, j) + Get(v, 0, j)
  {
    Tabulate(a.rows, a.cols, (i, j) => if 0 <= i < a.rows && 0 <= j < a.cols then Get(a, i, j) + Get(v, 0, j) else 0.0)
  }

  function Subtracted(a: Mat, b: Mat): (c: Mat)
    requires Wf(a) && Wf(b) && a.rows == b.rows && a.cols == b.cols
    ensures Wf(c) && c.rows == a.rows && c.cols == a.cols
    ensures forall i, j :: 0 <= i < a.rows && 0 <= j < a.cols ==> Get(c, i, j) == Get(a, i, j) - Get(b, i, j)
  {
    var c := Mat(a.rows, a.cols, seq(|a.data|, k requires 0 <= k < |a.data| => a.data[k] - b.data[k]));
    FlatCells(a, b, c, (x: real, y: real) => x - y);
    c
  }

  function Scaled(a: Mat, s: real): (c: Mat)
    requires Wf(a)
    ensures Wf(c) && c.rows == a.rows && c.cols == a.cols
    ensures forall i, j :: 0 <= i < a.rows && 0 <= j < a.cols ==> Get(c, i, j) == Get(a, i, j) * s
  {
    var c := Mat(a.rows, a.cols, seq(|a.data|, k requires 0 <= k < |a.data| => a.data[k] * s));
    FlatCells(a, a, c, (x: real, y: real) => x * s);
    c
  }

  /** A buffer holding every cell of a times s is the scaled matrix. */
  lemma ScaledFromCells(a: Mat, s: real, d: seq<real>)
    requires Wf(a) && |d| == |a.data| && forall k :: 0 <= k < |d| ==> d[k] == a.data[k] * s
    ensures Mat(a.rows, a.cols, d) == Scaled(a, s)
  {
    forall i, j | 0 <= i < a.rows && 0 <= j < a.cols ensures Get(Mat(a.rows, a.cols, d), i, j) == Get(a, i, j) * s {
      FlatIndex(i, j, a.rows, a.cols);
    }
    Ext(Mat(a.rows, a.cols, d), Scaled(a, s));
  }

  /** A buffer holding every product of corresponding cells is the Hadamard product. */
  lemma HadamardFromCells(a: Mat, b: Mat, d: seq<real>)
    requires Wf(a) && Wf(b) && a.rows == b.rows && a.cols == b.cols
    requires |d| == |a.data| && forall k :: 0 <= k < |d| ==> d[k] == a.data[k] * b.data[k]
    ensures Mat(a.rows, a.cols, d) == HadamardOf(a, b)
  {
    forall i, j | 0 <= i < a.rows && 0 <= j < a.cols
      ensures Get(Mat(a.rows, a.cols, d), i, j) == Get(a, i, j) * Get(b, i, j)
    {
      FlatIndex(i, j, a.rows, a.cols);
    }
    Ext(Mat(a.rows, a.cols, d), HadamardOf(a, b));
  }

  function HadamardOf(a: Mat, b: Mat): (c: Mat)
    requires Wf(a) && Wf(b) && a.rows == b.rows && a.cols == b.cols
    ensures Wf(c) && c.rows == a.rows && c.cols == a.cols
    ensures forall i, j :: 0 <= i < a.rows && 0 <= j < a.cols ==> Get(c, i, j) == Get(a, i, j) * Get(b, i, j)
  {
    var c := Mat(a.rows, a.cols, seq(|a.data|, k requires 0 <= k < |a.data| => a.data[k] * b.data[k]));
    FlatCells(a, b, c, (x: real, y: real) => x * y);
    c
  }

  /** Rows [s, e) of m. */
  function Slice(m: Mat, s: nat, e: nat): (r: Mat)
    requires Wf(m) && s <= e <= m.rows
    ensures Wf(r) && r.rows == e - s && r.cols == m.cols
    ensures forall i, j :: 0 <= i < e - s && 0 <= j < m.cols ==> Get(r, i, j) == Get(m, s + i, j)
  {
    Tabulate(e - s, m.cols, (i, j) => if 0 <= i < e - s && 0 <= j < m.cols then Get(m, s + i, j) else 0.0)
  }

  lemma Distribute(s: nat, i: nat, j: nat, c: nat)
    ensures (s + i) * c + j == s * c + (i * c + j)
  {}

  /** Rows [s, e) are the contiguous block of flat cells [s*cols, e*cols). */
  lemma SliceOfBlock(m: Mat, s: nat, e: nat)
    requires Wf(m) && s <= e <= m.rows
    ensures s * m.cols <= e * m.cols <= |m.data|
    ensures Mat(e - s, m.cols, m.data[s * m.cols .. e * m.cols]) == Slice(m, s, e)
  {
    MulMono(s, e, m.cols);
    MulMono(e, m.rows, m.cols);
    var n := e - s;
    assert e * m.cols - s * m.cols == n * m.cols by { Distribute(s, n, 0, m.cols); }
    var res := Mat(n, m.cols, m.data[s * m.cols .. e * m.cols]);
    forall i, j | 0 <= i < n && 0 <= j < m.cols ensures Get(res, i, j) == Get(m, s + i, j) {
      FlatIndex(i, j, n, m.cols);
      Distribute(s, i, j, m.cols);
    }
    Ext(res, Slice(m, s, e));
  }

  /** Every cell replaced by f(i, j, old cell). */
  function Applied(m: Mat, f: (int, int, real) -> real): (r: Mat)
    requires Wf(m)
    ensures Wf(r) && r.rows == m.rows && r.cols == m.cols
    ensures forall i, j :: 0 <= i < m.rows && 0 <= j < m.cols ==> Get(r, i, j) == f(i, j, Get(m, i, j))
  {
    Tabulate(m.rows, m.cols, (i, j) => if 0 <= i < m.rows && 0 <= j < m.cols then f(i, j, Get(m, i, j)) else 0.0)
  }

  // ------------------------------------------------------------- reductions

  /** Sum over k in [lo, hi) of a(i,k)*b(k,j), accumulated in increasing k. */
  function DotRange(a: Mat, b: Mat, i: int, j: int, lo: int, hi: int): real
    requires Wf(a) && Wf(b) && a.cols == b.rows
    requires 0 <= i < a.rows && 0 <= j < b.cols && 0 <= lo <= hi <= a.cols
    decreases hi - lo
  {
    if lo == hi then 0.0 else DotRange(a, b, i, j, lo, hi - 1) + Get(a, i, hi - 1) * Get(b, hi - 1, j)
  }

  /** Sum over k in [lo, hi) of a(i,k)*bt(j,k): row i of a against row j of bt. */
  function DotTRange(a: Mat, bt: Mat, i: int, j: int, lo: int, hi: int): real
    requires Wf(a) && Wf(bt) && a.cols == bt.cols
    requires 0 <= i < a.rows && 0 <= j < bt.rows && 0 <= lo <= hi <= a.cols
    decreases hi - lo
  {
    if lo == hi then 0.0 else DotTRange(a, bt, i, j, lo, hi - 1) + Get(a, i, hi - 1) * Get(bt, j, hi - 1)
  }

  lemma {:induction false} DotTSplit(a: Mat, bt: Mat, i: int, j: int, lo: int, mid: int, hi: int)
    requires Wf(a) && Wf(bt) && a.cols == bt.cols
    requires 0 <= i < a.rows && 0 <= j < bt.rows && 0 <= lo <= mid <= hi <= a.cols
    ensures DotTRange(a, bt, i, j, lo, hi) == DotTRange(a, bt, i, j, lo, mid) + DotTRange(a, bt, i, j, mid, hi)
    decreases hi - mid
  {
    if mid < hi { DotTSplit(a, bt, i, j, lo, mid, hi - 1); }
  }

  /** Row j of bt holding column j of b, the two dot products agree term by term. */
  lemma {:induction false} DotTOfTransposed(a: Mat, b: Mat, bt: Mat, i: int, j: int, lo: int, hi: int)
    requires Wf(a) && Wf(b) && a.cols == b.rows && Wf(bt) && bt.rows == b.cols && bt.cols == b.rows
    requires 0 <= i < a.rows && 0 <= j < b.cols && 0 <= lo <= hi <= a.cols
    requires forall k :: 0 <= k < b.rows ==> Get(bt, j, k) == Get(b, k, j)
    ensures DotTRange(a, bt, i, j, lo, hi) == DotRange(a, b, i, j, lo, hi)
    decreases hi - lo
  {
    if lo < hi { DotTOfTransposed(a, b, bt, i, j, lo, hi - 1); }
  }

  /** The matrix product: cell (i, j) is the dot product of row i of a and column j of b. */
  function Product(a: Mat, b: Mat): (c: Mat)
    requires Wf(a) && Wf(b) && a.cols == b.rows
    ensures Wf(c) && c.rows == a.rows && c.cols == b.cols
    ensures forall i, j :: 0 <= i < a.rows && 0 <= j < b.cols ==> Get(c, i, j) == DotRange(a, b, i, j, 0, a.cols)
  {
    Tabulate(a.rows, b.cols, (i, j) => if 0 <= i < a.rows && 0 <= j < b.cols then DotRange(a, b, i, j, 0, a.cols) else 0.0)
  }

  /** The product of a with the transpose of bt. */
  function ProductT(a: Mat, bt: Mat): (c: Mat)
    requires Wf(a) && Wf(bt) && a.cols == bt.cols
    ensures Wf(c) && c.rows == a.rows && c.cols == bt.rows
    ensures forall i, j :: 0 <= i < a.rows && 0 <= j < bt.rows ==> Get(c, i, j) == DotTRange(a, bt, i, j, 0, a.cols)
  {
    Tabulate(a.rows, bt.rows, (i, j) => if 0 <= i < a.rows && 0 <= j < bt.rows then DotTRange(a, bt, i, j, 0, a.cols) else 0.0)
  }

  /** Multiplying by a pre-transposed right operand is multiplying by its transpose. */
  lemma ProductTIsProduct(a: Mat, bt: Mat)
    requires Wf(a) && Wf(bt) && a.cols == bt.cols
    ensures ProductT(a, bt) == Product(a, Transposed(bt))
  {
    var b := Transposed(bt);
    TransposeInvolution(bt);
    forall i, j | 0 <= i < a.rows && 0 <= j < bt.rows
      ensures Get(ProductT(a, bt), i, j) == Get(Product(a, b), i, j)
    {
      DotTOfTransposed(a, b, bt, i, j, 0, a.cols);
    }
    Ext(ProductT(a, bt), Product(a, b));
  }

  /** Sum of column j over rows [0, n). */
  function ColSum(a: Mat, j: int, n: int): real
    requires Wf(a) && 0 <= j < a.cols && 0 <= n <= a.rows
  {
    if n == 0 then 0.0 else ColSum(a, j, n - 1) + Get(a, n - 1, j)
  }

  /** `out` after `a.sumRows(out)`: the first a.cols flat cells grow by the column sums. */
  function SumRowsInto(out: Mat, a: Mat): (r: Mat)
    requires Wf(out) && Wf(a) && a.cols <= |out.data|
    ensures Wf(r) && r.rows == out.rows && r.cols == out.cols
    ensures forall k :: 0 <= k < |out.data| ==>
      r.data[k] == if k < a.cols then out.data[k] + ColSum(a, k, a.rows) else out.data[k]
  {
    out.(data := seq(|out.data|, k requires 0 <= k < |out.data| =>
      if k < a.cols then out.data[k] + ColSum(a, k, a.rows) else out.data[k]))
  }

  /** A buffer matching SumRowsInto cell by cell is its result. */
  lemma SumRowsFromCells(out: Mat, a: Mat, d: seq<real>)
    requires Wf(out) && Wf(a) && a.cols <= |out.data| && |d| == |out.data|
    requires forall k :: 0 <= k < |d| ==> d[k] == if k < a.cols then out.data[k] + ColSum(a, k, a.rows) else out.data[k]
    ensures out.(data := d) == SumRowsInto(out, a)
  {
    var r := SumRowsInto(out, a);
    assert forall k :: 0 <= k < |d| ==> d[k] == r.data[k];
  }

  /** The column sums of `a` as a 1 x cols row. */
  function ColumnSums(a: Mat): (r: Mat)
    requires Wf(a)
    ensures Wf(r) && r.rows == 1 && r.cols == a.cols
    ensures forall j :: 0 <= j < a.cols ==> Get(r, 0, j) == ColSum(a, j, a.rows)
  {
    Tabulate(1, a.cols, (i, j) => if 0 <= j < a.cols then ColSum(a, j, a.rows) else 0.0)
  }

  /** Summing the rows into a zero 1 x cols row gives the column sums. */
  lemma SumRowsIntoZeroRow(a: Mat)
    requires Wf(a)
    ensures SumRowsInto(Zeros(1, a.cols), a) == ColumnSums(a)
  {
    var r := SumRowsInto(Zeros(1, a.cols), a);
    forall i, j | 0 <= i < 1 && 0 <= j < a.cols ensures Get(r, i, j) == Get(ColumnSums(a), i, j) {
      assert Get(r, 0, j) == r.data[j];
      assert Get(Zeros(1, a.cols), 0, j) == Zeros(1, a.cols).data[j];
    }
    Ext(r, ColumnSums(a));
  }

  /** Row-major left fold of f over the first n cells. */
  function FoldCells<T>(m: Mat, f: (T, int, int, real) -> T, init: T, n: nat): T
    requires Wf(m) && n <= |m.data| && m.cols > 0
  {
    if n == 0 then init else f(FoldCells(m, f, init, n - 1), (n - 1) / m.cols, (n - 1) % m.cols, m.data[n - 1])
  }

  /** `reduce(func, initial)`: a left fold over all cells in row-major order. */
  function Reduced<T>(m: Mat, f: (T, int, int, real) -> T, init: T): T
    requires Wf(m)
  {
    if m.cols == 0 then init else FoldCells(m, f, init, |m.data|)
  }

  /** Sum of all cells, row-major. */
  function SumCells(m: Mat, n: nat): real
    requires Wf(m) && n <= |m.data|
  {
    if n == 0 then 0.0 else SumCells(m, n - 1) + m.data[n - 1]
  }

  /** Two lists of matrices of the same length, matrix i of one shaped like matrix i of the other. */
  predicate Fitting(ps: seq<Mat>, qs: seq<Mat>)
  {
    |ps| == |qs| && forall i :: 0 <= i < |ps| ==> ps[i].rows == qs[i].rows && ps[i].cols == qs[i].cols
  }

  ghost predicate AllWf(ms: seq<Mat>)
  {
    forall i :: 0 <= i < |ms| ==> Wf(ms[i])
  }
}
