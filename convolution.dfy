// The index arithmetic of src/neuralnetwork/Conv2DLayer.cpp: the output
// extent of a convolution, `im2col` (one row per output pixel, one column
// per kernel tap), its adjoint `col2im` (each tap's gradient added back to
// the pixel it read), and the two reshapes between the pixel-major GEMM
// layout (batch * pixels) x filters and the sample layout
// batch x (filters * pixels). The nested loops are run sequentially.
module Convolutions {
  import opened Common
  import opened MatrixSpec
  import opened FlatSums

  /**
   * The shape fields of a `Conv2DLayer`: input depth, height and width,
   * the filter count, and the square kernel's size, stride and padding.
   */
  datatype Geometry = Geometry(depth: nat, height: nat, width: nat, filters: nat,
                               kernel: nat, stride: nat, padding: nat)
  {
    /** `(in - kernel_size + 2 * padding) / stride + 1`, with C++'s truncating division. */
    function OutExtent(n: int): int
      requires stride > 0
    {
      CDiv(n - kernel + 2 * padding, stride) + 1
    }

    /**
     * A geometry the layer can run on: a positive stride (the division
     * above) and output extents that are not negative (they size a matrix).
     */
    predicate Sound()
    {
      stride > 0 && OutExtent(height) >= 0 && OutExtent(width) >= 0
    }

    function OutHeight(): nat
      requires Sound()
    {
      OutExtent(height)
    }

    function OutWidth(): nat
      requires Sound()
    {
      OutExtent(width)
    }

    /** `output_height * output_width`: the output pixels of one sample. */
    function Pixels(): nat
      requires Sound()
    {
      OutHeight() * OutWidth()
    }

    /** `kernel_size * kernel_size * depth`: the taps of one output pixel. */
    function FanIn(): nat
    {
      kernel * kernel * depth
    }

    /** `depth * input_height * input_width`: the cells of one input sample. */
    function ImageSize(): nat
    {
      depth * height * width
    }

    /**
     * The flat input index that tap (c, ky, kx) of output pixel (y, x)
     * reads: channel c at row y * stride - padding + ky and column
     * x * stride - padding + kx, or None when that falls in the padding.
     */
    function Pixel(y: int, x: int, c: int, ky: int, kx: int): (i: Option<nat>)
      requires Sound() && 0 <= c < depth
      ensures i.Some? ==> i.value < ImageSize()
    {
      var iy := y * stride - padding + ky;
      var ix := x * stride - padding + kx;
      if 0 <= iy < height && 0 <= ix < width then
        Radix3(c, iy, ix, depth, height, width);
        Assoc(c, height, width);
        Assoc(depth, height, width);
        Some(c * height * width + iy * width + ix)
      else
        None
    }

    /** Every tap inside the image, of every output pixel, names an input column below n. */
    predicate TapsWithin(n: int)
      requires Sound()
    {
      forall y, x, c, ky, kx | 0 <= y < OutHeight() && 0 <= x < OutWidth() && 0 <= c < depth &&
                               0 <= ky < kernel && 0 <= kx < kernel ::
        Pixel(y, x, c, ky, kx).Some? ==> Pixel(y, x, c, ky, kx).value < n
    }
  }

  /**
   * `im2col` runs to the end on X: X has no sample, or every in-image tap
   * reads one of its columns. Otherwise the first tap at or past X's width
   * throws.
   */
  predicate Im2ColRuns(g: Geometry, X: Mat)
    requires g.Sound()
  {
    X.rows == 0 || g.TapsWithin(X.cols)
  }

  /** An input as wide as the image is read in full. */
  lemma FullWidthRuns(g: Geometry, X: Mat)
    requires g.Sound() && X.cols >= g.ImageSize()
    ensures Im2ColRuns(g, X)
  {
  }

  /**
   * The taps may stop short of the image's last columns: with depth 1,
   * height 2m, width 1, kernel 1, stride 2 and no padding, the m output
   * pixels read columns 0, 2, .., 2m - 2, so an input one column narrower
   * than the image is read in full.
   */
  lemma StridedTapsStopShort(m: nat)
    requires m >= 1
    ensures var g := Geometry(1, 2 * m, 1, 1, 1, 2, 0);
      g.Sound() && g.ImageSize() == 2 * m && g.OutHeight() == m && g.TapsWithin(2 * m - 1)
  {
    var g := Geometry(1, 2 * m, 1, 1, 1, 2, 0);
    StridedExtents(m);
    forall y, x, c, ky, kx | 0 <= y < g.OutHeight() && 0 <= x < g.OutWidth() && 0 <= c < g.depth &&
                             0 <= ky < g.kernel && 0 <= kx < g.kernel
      ensures g.Pixel(y, x, c, ky, kx).Some? ==> g.Pixel(y, x, c, ky, kx).value < 2 * m - 1
    {
      StridedPixel(m, y);
    }
  }

  /** That geometry has m output rows and one output column. */
  lemma StridedExtents(m: nat)
    requires m >= 1
    ensures var g := Geometry(1, 2 * m, 1, 1, 1, 2, 0);
      g.Sound() && g.OutHeight() == m && g.OutWidth() == 1
  {
    DivUnique(2 * m - 1, 2, m - 1, 1);
  }

  /** Output pixel y of that geometry reads row 2y. */
  lemma StridedPixel(m: nat, y: nat)
    requires m >= 1 && y < m && Geometry(1, 2 * m, 1, 1, 1, 2, 0).Sound()
    ensures Geometry(1, 2 * m, 1, 1, 1, 2, 0).Pixel(y, 0, 0, 0, 0) == Some(2 * y)
  {
  }

  /**
   * The sample row and input column that entry (r, q) of the im2col
   * matrix reads: r is b * pixels + y * out_width + x and q is
   * c * kernel^2 + ky * kernel + kx; None for a padded tap.
   */
  function Tap(g: Geometry, r: int, q: int): Option<(nat, nat)>
    requires g.Sound()
  {
    if r < 0 || q < 0 || g.OutWidth() == 0 || g.OutHeight() == 0 || g.kernel == 0 then None
    else
      var (yb, x) := Split(r, g.OutWidth());
      var (b, y) := Split(yb, g.OutHeight());
      var (cky, kx) := Split(q, g.kernel);
      var (c, ky) := Split(cky, g.kernel);
      if c < g.depth then
        match g.Pixel(y, x, c, ky, kx)
        case None => None
        case Some(i) => Some((b, i))
      else None
  }

  /** n as quotient and remainder by d. */
  function Split(n: nat, d: nat): (p: (nat, nat))
    requires d > 0
    ensures p.1 < d && p.0 * d + p.1 == n
  {
    DivMod(n, d);
    (n / d, n % d)
  }

  /** Splitting a * d + e by d gives back a and e. */
  lemma SplitOf(a: nat, e: nat, d: nat)
    requires e < d
    ensures a * d + e >= 0 && Split(a * d + e, d) == (a, e)
  {
    DivModOf(a, e, d);
  }

  /** A three-level mixed-radix index a * (m * n) + e * n + f, its nested form and its bound. */
  lemma Radix3(a: nat, e: nat, f: nat, l: nat, m: nat, n: nat)
    requires a < l && e < m && f < n
    ensures a * (m * n) + e * n + f == (a * m + e) * n + f
    ensures 0 <= a * m + e < l * m
    ensures 0 <= a * (m * n) + e * n + f < l * (m * n)
  {
    assert a * (m * n) == (a * m) * n;
    FlatIndex(a, e, l, m);
    FlatIndex(a * m + e, f, l * m, n);
    assert (l * m) * n == l * (m * n);
  }

  lemma Assoc(a: int, b: int, c: int)
    ensures a * b * c == a * (b * c)
  {
  }

  /** One more step of n: a + n * k + k is a + (n + 1) * k. */
  lemma NextMultiple(a: int, n: int, k: int)
    ensures a + n * k + k == a + (n + 1) * k
  {
  }

  /** Block b of n blocks of p lies inside the n * p cells. */
  lemma BlockWithin(b: nat, n: nat, p: nat)
    requires b < n
    ensures 0 <= b * p && b * p + p <= n * p
  {
    assert b * p + p == (b + 1) * p;
  }

  /** One more block of k * k, and the block count written both ways round. */
  lemma NextBlock(c: int, k: int)
    ensures c * k * k + k * k == (c + 1) * k * k
    ensures c * k * k == k * k * c
  {
  }

  /** The im2col row of output pixel (y, x) of sample b, and the bound it keeps. */
  lemma RowIndex(g: Geometry, n: nat, b: nat, y: nat, x: nat)
    requires g.Sound() && b < n && y < g.OutHeight() && x < g.OutWidth()
    ensures b * g.Pixels() + y * g.OutWidth() + x == (b * g.OutHeight() + y) * g.OutWidth() + x
    ensures 0 <= b * g.OutHeight() + y && 0 <= b * g.Pixels() + y * g.OutWidth() + x < n * g.Pixels()
  {
    Radix3(b, y, x, n, g.OutHeight(), g.OutWidth());
  }

  /** The im2col column of tap (c, ky, kx), and the bound it keeps. */
  lemma ColIndex(g: Geometry, c: nat, ky: nat, kx: nat)
    requires c < g.depth && ky < g.kernel && kx < g.kernel
    ensures c * g.kernel * g.kernel + ky * g.kernel + kx == (c * g.kernel + ky) * g.kernel + kx
    ensures 0 <= c * g.kernel + ky && 0 <= c * g.kernel * g.kernel + ky * g.kernel + kx < g.FanIn()
  {
    var k := g.kernel;
    Radix3(c, ky, kx, g.depth, k, k);
    assert c * k * k == c * (k * k);
    assert g.depth * (k * k) == k * k * g.depth;
  }

  /** Tap decodes the row and column that the loops of `im2col` compute. */
  lemma TapAt(g: Geometry, n: nat, b: nat, y: nat, x: nat, c: nat, ky: nat, kx: nat)
    requires g.Sound() && b < n && y < g.OutHeight() && x < g.OutWidth()
    requires c < g.depth && ky < g.kernel && kx < g.kernel
    ensures Tap(g, b * g.Pixels() + y * g.OutWidth() + x, c * g.kernel * g.kernel + ky * g.kernel + kx) ==
      match g.Pixel(y, x, c, ky, kx)
      case None => None
      case Some(i) => Some((b, i))
  {
    var oh, ow, k := g.OutHeight(), g.OutWidth(), g.kernel;
    RowIndex(g, n, b, y, x);
    ColIndex(g, c, ky, kx);
    var r := b * g.Pixels() + y * ow + x;
    var q := c * k * k + ky * k + kx;
    SplitOf(b * oh + y, x, ow);
    SplitOf(b, y, oh);
    SplitOf(c * k + ky, kx, k);
    SplitOf(c, ky, k);
  }

  /** The input cell a tap reads: 0 for a padded tap. */
  function Cell(t: Option<(nat, nat)>, X: Mat): real
    requires Wf(X)
  {
    match t
    case None => 0.0
    case Some((b, i)) => if b < X.rows && i < X.cols then Get(X, b, i) else 0.0
  }

  /** Entry (r, q) of the im2col matrix of X: the input cell the tap reads, 0 in the padding. */
  function Im2ColCell(g: Geometry, X: Mat, r: int, q: int): real
    requires g.Sound() && Wf(X)
  {
    Cell(Tap(g, r, q), X)
  }

  /** `im2col(input)`: a (batch * pixels) x (kernel^2 * depth) matrix of taps. */
  function Im2Col(g: Geometry, X: Mat): (m: Mat)
    requires g.Sound() && Wf(X)
    ensures Wf(m) && m.rows == X.rows * g.Pixels() && m.cols == g.FanIn()
  {
    Tabulate(X.rows * g.Pixels(), g.FanIn(), (r, q) => Im2ColCell(g, X, r, q))
  }

  /**
   * The index map of `im2col`: entry (b * pixels + y * out_width + x,
   * c * kernel^2 + ky * kernel + kx) holds input(b, c * H * W + iy * W + ix)
   * for iy = y * stride - padding + ky and ix = x * stride - padding + kx
   * inside the image (the index `Pixel` computes), and 0 when (iy, ix) is
   * in the padding.
   */
  lemma Im2ColEntry(g: Geometry, X: Mat, b: nat, y: nat, x: nat, c: nat, ky: nat, kx: nat, row: int, col: int)
    requires g.Sound() && Wf(X) && g.TapsWithin(X.cols)
    requires b < X.rows && y < g.OutHeight() && x < g.OutWidth()
    requires c < g.depth && ky < g.kernel && kx < g.kernel
    requires row == b * g.Pixels() + y * g.OutWidth() + x
    requires col == c * g.kernel * g.kernel + ky * g.kernel + kx
    ensures 0 <= row < X.rows * g.Pixels() && 0 <= col < g.FanIn()
    ensures Get(Im2Col(g, X), row, col) ==
      match g.Pixel(y, x, c, ky, kx)
      case None => 0.0
      case Some(i) => Get(X, b, i)
  {
    RowIndex(g, X.rows, b, y, x);
    ColIndex(g, c, ky, kx);
    TapAt(g, X.rows, b, y, x, c, ky, kx);
  }

  /**
   * The body of `im2col` for one output pixel: the taps in (c, ky, kx)
   * order, `col_idx` counting up, each written into row `row`.
   */
  method WritePatch(g: Geometry, X: Mat, m0: Mat, b: nat, y: nat, x: nat, row: nat) returns (m: Mat)
    requires g.Sound() && Wf(X) && g.TapsWithin(X.cols) && b < X.rows && y < g.OutHeight() && x < g.OutWidth()
    requires row == b * g.Pixels() + y * g.OutWidth() + x
    requires Wf(m0) && m0.rows == X.rows * g.Pixels() && m0.cols == g.FanIn()
    ensures Wf(m) && m.rows == m0.rows && m.cols == m0.cols
    ensures forall r, q :: 0 <= r < m.rows && 0 <= q < m.cols ==>
      Get(m, r, q) == if r == row then Im2ColCell(g, X, r, q) else Get(m0, r, q)
  {
    RowIndex(g, X.rows, b, y, x);
    var k := g.kernel;
    m := m0;
    var col := 0;
    var c := 0;
    while c < g.depth
      invariant 0 <= c <= g.depth && col == c * k * k && 0 <= col
      invariant Wf(m) && m.rows == m0.rows && m.cols == m0.cols
      invariant forall r, q :: 0 <= r < m.rows && 0 <= q < m.cols ==>
        Get(m, r, q) == if r == row && q < col then Im2ColCell(g, X, r, q) else Get(m0, r, q)
    {
      var ky := 0;
      while ky < k
        invariant 0 <= ky <= k && col == c * k * k + ky * k && 0 <= col
        invariant Wf(m) && m.rows == m0.rows && m.cols == m0.cols
        invariant forall r, q :: 0 <= r < m.rows && 0 <= q < m.cols ==>
          Get(m, r, q) == if r == row && q < col then Im2ColCell(g, X, r, q) else Get(m0, r, q)
      {
        m, col := WriteTapRow(g, X, m, b, y, x, row, c, ky, col, m0);
        NextMultiple(c * k * k, ky, k);
        ky := ky + 1;
      }
      NextBlock(c, k);
      c := c + 1;
    }
    NextBlock(g.depth, k);
  }

  /**
   * The innermost loop of `im2col` for one output pixel: the taps (c, ky, 0)
   * .. (c, ky, k - 1), written into row `row` from column col0 on.
   */
  method WriteTapRow(g: Geometry, X: Mat, m0: Mat, b: nat, y: nat, x: nat, row: nat, c: nat, ky: nat, col0: int,
                     ghost start: Mat) returns (m: Mat, col: int)
    requires g.Sound() && Wf(X) && g.TapsWithin(X.cols) && b < X.rows && y < g.OutHeight() && x < g.OutWidth()
    requires row == b * g.Pixels() + y * g.OutWidth() + x && row < X.rows * g.Pixels()
    requires c < g.depth && ky < g.kernel && col0 == c * g.kernel * g.kernel + ky * g.kernel && 0 <= col0
    requires Wf(m0) && m0.rows == X.rows * g.Pixels() && m0.cols == g.FanIn()
    requires Wf(start) && start.rows == m0.rows && start.cols == m0.cols
    requires forall r, q :: 0 <= r < m0.rows && 0 <= q < m0.cols ==>
      Get(m0, r, q) == if r == row && q < col0 then Im2ColCell(g, X, r, q) else Get(start, r, q)
    ensures col == col0 + g.kernel
    ensures Wf(m) && m.rows == m0.rows && m.cols == m0.cols
    ensures forall r, q :: 0 <= r < m.rows && 0 <= q < m.cols ==>
      Get(m, r, q) == if r == row && q < col then Im2ColCell(g, X, r, q) else Get(start, r, q)
  {
    var inY, inX0 := y * g.stride - g.padding + ky, x * g.stride - g.padding;
    m, col := m0, col0;
    var kx := 0;
    while kx < g.kernel
      invariant 0 <= kx <= g.kernel && col == col0 + kx
      invariant Wf(m) && m.rows == m0.rows && m.cols == m0.cols
      invariant forall r, q :: 0 <= r < m.rows && 0 <= q < m.cols ==>
        Get(m, r, q) == if r == row && q < col then Im2ColCell(g, X, r, q) else Get(start, r, q)
    {
      var inX := inX0 + kx;
      var val := 0.0;
      ColIndex(g, c, ky, kx);
      TapAt(g, X.rows, b, y, x, c, ky, kx);
      if 0 <= inY < g.height && 0 <= inX < g.width {
        var flat := c * g.height * g.width + inY * g.width + inX;
        assert g.Pixel(y, x, c, ky, kx) == Some(flat);
        val := Get(X, b, flat);
      }
      assert val == Im2ColCell(g, X, row, col);
      m := Set(m, row, col, val);
      col := col + 1;
      kx := kx + 1;
    }
  }

  /**
   * `im2col(input)` on an input it reads in full: every output pixel of
   * every sample, in (b, y, x) order, writes its row of taps.
   */
  method Im2ColLoop(g: Geometry, X: Mat) returns (m: Mat)
    requires g.Sound() && Wf(X) && Im2ColRuns(g, X)
    ensures m == Im2Col(g, X)
  {
    var oh, ow := g.OutHeight(), g.OutWidth();
    m := Zeros(X.rows * (oh * ow), g.FanIn());
    var b: int := 0;
    while b < X.rows
      invariant 0 <= b <= X.rows
      invariant Wf(m) && m.rows == X.rows * g.Pixels() && m.cols == g.FanIn()
      invariant forall r, q :: 0 <= r < m.rows && 0 <= q < m.cols ==>
        Get(m, r, q) == if r < b * g.Pixels() then Im2ColCell(g, X, r, q) else 0.0
    {
      var y: int := 0;
      while y < oh
        invariant 0 <= y <= oh
        invariant Wf(m) && m.rows == X.rows * g.Pixels() && m.cols == g.FanIn()
        invariant forall r, q :: 0 <= r < m.rows && 0 <= q < m.cols ==>
          Get(m, r, q) == if r < b * g.Pixels() + y * ow then Im2ColCell(g, X, r, q) else 0.0
      {
        m := Im2ColLine(g, X, m, b, y);
        NextMultiple(b * g.Pixels(), y, ow);
        y := y + 1;
      }
      NextMultiple(0, b, g.Pixels());
      b := b + 1;
    }
    Ext(m, Im2Col(g, X));
  }

  /** The innermost loop of `im2col`: the output pixels (y, 0) .. (y, ow - 1) of sample b write their rows. */
  method Im2ColLine(g: Geometry, X: Mat, m0: Mat, b: nat, y: nat) returns (m: Mat)
    requires g.Sound() && Wf(X) && g.TapsWithin(X.cols) && b < X.rows && y < g.OutHeight()
    requires Wf(m0) && m0.rows == X.rows * g.Pixels() && m0.cols == g.FanIn()
    requires forall r, q :: 0 <= r < m0.rows && 0 <= q < m0.cols ==>
      Get(m0, r, q) == if r < b * g.Pixels() + y * g.OutWidth() then Im2ColCell(g, X, r, q) else 0.0
    ensures Wf(m) && m.rows == m0.rows && m.cols == m0.cols
    ensures forall r, q :: 0 <= r < m.rows && 0 <= q < m.cols ==>
      Get(m, r, q) == if r < b * g.Pixels() + y * g.OutWidth() + g.OutWidth() then Im2ColCell(g, X, r, q) else 0.0
  {
    var oh, ow := g.OutHeight(), g.OutWidth();
    m := m0;
    var x: int := 0;
    while x < ow
      invariant 0 <= x <= ow
      invariant Wf(m) && m.rows == X.rows * g.Pixels() && m.cols == g.FanIn()
      invariant forall r, q :: 0 <= r < m.rows && 0 <= q < m.cols ==>
        Get(m, r, q) == if r < b * g.Pixels() + y * ow + x then Im2ColCell(g, X, r, q) else 0.0
    {
      RowIndex(g, X.rows, b, y, x);
      var rowIdx := b * (oh * ow) + y * ow + x;
      m := WritePatch(g, X, m, b, y, x, rowIdx);
      x := x + 1;
    }
  }

  // ------------------------------------------------------------------ col2im

  /**
   * One tap of `col2im`: entry (r, q) of the column gradient added into
   * the input cell that tap read; a padded tap adds nothing.
   */
  function Scatter(g: Geometry, C: Mat, acc: Mat, r: int, q: int): (m: Mat)
    requires g.Sound() && Wf(C) && Wf(acc) && 0 <= r < C.rows && 0 <= q < C.cols
    ensures Wf(m) && m.rows == acc.rows && m.cols == acc.cols
  {
    Deposit(Tap(g, r, q), acc, Get(C, r, q))
  }

  /** v added into the cell a tap read; nothing for a padded tap. */
  function Deposit(t: Option<(nat, nat)>, acc: Mat, v: real): (m: Mat)
    requires Wf(acc)
    ensures Wf(m) && m.rows == acc.rows && m.cols == acc.cols
  {
    match t
    case None => acc
    case Some((b, i)) => if b < acc.rows && i < acc.cols then Set(acc, b, i, Get(acc, b, i) + v) else acc
  }

  /** The first n taps of im2col row r scattered into acc, in column order. */
  function ScatterRow(g: Geometry, C: Mat, acc: Mat, r: int, n: int): (m: Mat)
    requires g.Sound() && Wf(C) && Wf(acc) && 0 <= r < C.rows && 0 <= n <= C.cols
    ensures Wf(m) && m.rows == acc.rows && m.cols == acc.cols
    decreases n
  {
    if n == 0 then acc else Scatter(g, C, ScatterRow(g, C, acc, r, n - 1), r, n - 1)
  }

  /** The first n rows of C scattered, row after row, into a zero batch x (depth * H * W) matrix. */
  function ScatterRows(g: Geometry, C: Mat, batch: nat, n: int): (m: Mat)
    requires g.Sound() && Wf(C) && 0 <= n <= C.rows
    ensures Wf(m) && m.rows == batch && m.cols == g.ImageSize()
  {
    if n == 0 then Zeros(batch, g.ImageSize())
    else ScatterRow(g, C, ScatterRows(g, C, batch, n - 1), n - 1, C.cols)
  }

  /**
   * `col2im(col_matrix)` for a batch of `input_cache.rows` samples: every
   * in-image entry of the first batch * pixels rows is added into the
   * input cell that `im2col` read it from.
   */
  function Col2Im(g: Geometry, C: Mat, batch: nat): (m: Mat)
    requires g.Sound() && Wf(C) && C.rows >= batch * g.Pixels()
    ensures Wf(m) && m.rows == batch && m.cols == g.ImageSize()
  {
    ScatterRows(g, C, batch, batch * g.Pixels())
  }

  /** The tap of `col2im`'s loops at (b, y, x; c, ky, kx) is the Scatter step at its row and column. */
  lemma ScatterAt(g: Geometry, C: Mat, m: Mat, b: nat, y: nat, x: nat, c: nat, ky: nat, kx: nat, row: int, col: int)
    requires g.Sound() && Wf(C) && C.cols == g.FanIn() && Wf(m) && b < m.rows && m.cols == g.ImageSize()
    requires y < g.OutHeight() && x < g.OutWidth() && c < g.depth && ky < g.kernel && kx < g.kernel
    requires row == b * g.Pixels() + y * g.OutWidth() + x && 0 <= row < C.rows
    requires col == c * g.kernel * g.kernel + ky * g.kernel + kx
    ensures 0 <= col < C.cols
    ensures Scatter(g, C, m, row, col) ==
      match g.Pixel(y, x, c, ky, kx)
      case None => m
      case Some(i) => Set(m, b, i, Get(m, b, i) + Get(C, row, col))
  {
    ColIndex(g, c, ky, kx);
    TapAt(g, m.rows, b, y, x, c, ky, kx);
  }

  /** The body of `col2im` for one output pixel: its taps in (c, ky, kx) order. */
  method AccumulatePatch(g: Geometry, C: Mat, m0: Mat, b: nat, y: nat, x: nat, row: nat) returns (m: Mat)
    requires g.Sound() && Wf(C) && C.cols == g.FanIn() && y < g.OutHeight() && x < g.OutWidth()
    requires Wf(m0) && b < m0.rows && m0.cols == g.ImageSize()
    requires row == b * g.Pixels() + y * g.OutWidth() + x && row < C.rows
    ensures m == ScatterRow(g, C, m0, row, C.cols)
  {
    var k := g.kernel;
    m := m0;
    var col := 0;
    var c := 0;
    while c < g.depth
      invariant 0 <= c <= g.depth && col == c * k * k
      invariant 0 <= col <= C.cols && m == ScatterRow(g, C, m0, row, col)
    {
      var ky := 0;
      while ky < k
        invariant 0 <= ky <= k && col == c * k * k + ky * k
        invariant 0 <= col <= C.cols && m == ScatterRow(g, C, m0, row, col)
      {
        ColIndex(g, c, ky, k - 1);
        m, col := AccumulateTapRow(g, C, m, b, y, x, row, c, ky, col, m0);
        NextMultiple(c * k * k, ky, k);
        ky := ky + 1;
      }
      NextBlock(c, k);
      c := c + 1;
    }
    NextBlock(g.depth, k);
  }

  /**
   * The innermost loop of `col2im` for one output pixel: the taps (c, ky, 0)
   * .. (c, ky, k - 1) of row `row`, from column col0 on, each added into
   * the cell it read.
   */
  method AccumulateTapRow(g: Geometry, C: Mat, m0: Mat, b: nat, y: nat, x: nat, row: nat, c: nat, ky: nat, col0: int,
                          ghost start: Mat) returns (m: Mat, col: int)
    requires g.Sound() && Wf(C) && C.cols == g.FanIn() && y < g.OutHeight() && x < g.OutWidth()
    requires Wf(start) && b < start.rows && start.cols == g.ImageSize()
    requires row == b * g.Pixels() + y * g.OutWidth() + x && row < C.rows
    requires c < g.depth && ky < g.kernel && col0 == c * g.kernel * g.kernel + ky * g.kernel
    requires 0 <= col0 && col0 + g.kernel <= C.cols && m0 == ScatterRow(g, C, start, row, col0)
    ensures col == col0 + g.kernel && col <= C.cols && m == ScatterRow(g, C, start, row, col)
  {
    var inY, inX0 := y * g.stride - g.padding + ky, x * g.stride - g.padding;
    m, col := m0, col0;
    var kx := 0;
    while kx < g.kernel
      invariant 0 <= kx <= g.kernel && col == col0 + kx
      invariant col <= C.cols && m == ScatterRow(g, C, start, row, col)
    {
      var inX := inX0 + kx;
      ScatterAt(g, C, m, b, y, x, c, ky, kx, row, col);
      ghost var next := Scatter(g, C, m, row, col);
      assert ScatterRow(g, C, start, row, col + 1) == next;
      if 0 <= inY < g.height && 0 <= inX < g.width {
        var flat := c * g.height * g.width + inY * g.width + inX;
        assert g.Pixel(y, x, c, ky, kx) == Some(flat);
        m := Set(m, b, flat, Get(m, b, flat) + Get(C, row, col));
      } else {
        assert g.Pixel(y, x, c, ky, kx).None?;
      }
      assert m == next;
      col := col + 1;
      kx := kx + 1;
    }
  }

  /**
   * `col2im(col_matrix)`: a zero batch x (depth * H * W) matrix into which
   * every output pixel of every sample, in (b, y, x) order, accumulates its
   * taps. The column matrix has a column per tap and at least batch *
   * pixels rows.
   */
  method Col2ImLoop(g: Geometry, C: Mat, batch: nat) returns (m: Mat)
    requires g.Sound() && Wf(C) && C.cols == g.FanIn() && C.rows >= batch * g.Pixels()
    ensures m == Col2Im(g, C, batch)
  {
    var oh, ow := g.OutHeight(), g.OutWidth();
    m := Zeros(batch, g.ImageSize());
    ghost var done := 0;
    var b: int := 0;
    while b < batch
      invariant 0 <= b <= batch && done == b * g.Pixels() && 0 <= done <= batch * g.Pixels()
      invariant m == ScatterRows(g, C, batch, done)
    {
      BlockWithin(b, batch, g.Pixels());
      m := Col2ImSample(g, C, m, batch, b, done);
      NextMultiple(0, b, g.Pixels());
      done := done + g.Pixels();
      b := b + 1;
    }
  }

  /** The output pixels of sample b, row by row, accumulate their taps. */
  method Col2ImSample(g: Geometry, C: Mat, m0: Mat, batch: nat, b: nat, ghost done0: int) returns (m: Mat)
    requires g.Sound() && Wf(C) && C.cols == g.FanIn() && C.rows >= batch * g.Pixels()
    requires b < batch && done0 == b * g.Pixels() && 0 <= done0 && done0 + g.Pixels() <= batch * g.Pixels()
    requires m0 == ScatterRows(g, C, batch, done0)
    ensures m == ScatterRows(g, C, batch, done0 + g.Pixels())
  {
    var oh, ow := g.OutHeight(), g.OutWidth();
    m := m0;
    ghost var done := done0;
    var y: int := 0;
    while y < oh
      invariant 0 <= y <= oh && done == b * g.Pixels() + y * ow && 0 <= done <= batch * g.Pixels()
      invariant m == ScatterRows(g, C, batch, done)
    {
      if ow > 0 {
        RowIndex(g, batch, b, y, ow - 1);
      }
      m := Col2ImLine(g, C, m, batch, b, y, done);
      done := done + ow;
      NextMultiple(b * g.Pixels(), y, ow);
      y := y + 1;
    }
  }

  /** The innermost loop of `col2im`: the output pixels (y, 0) .. (y, ow - 1) of sample b accumulate their taps. */
  method Col2ImLine(g: Geometry, C: Mat, m0: Mat, batch: nat, b: nat, y: nat, ghost done0: int) returns (m: Mat)
    requires g.Sound() && Wf(C) && C.cols == g.FanIn() && C.rows >= batch * g.Pixels()
    requires b < batch && y < g.OutHeight() && done0 == b * g.Pixels() + y * g.OutWidth()
    requires 0 <= done0 && done0 + g.OutWidth() <= batch * g.Pixels()
    requires m0 == ScatterRows(g, C, batch, done0)
    ensures m == ScatterRows(g, C, batch, done0 + g.OutWidth())
  {
    var oh, ow := g.OutHeight(), g.OutWidth();
    m := m0;
    ghost var done := done0;
    var x: int := 0;
    while x < ow
      invariant 0 <= x <= ow && done == done0 + x
      invariant m == ScatterRows(g, C, batch, done)
    {
      var rowIdx := b * (oh * ow) + y * ow + x;
      RowIndex(g, batch, b, y, x);
      m := AccumulatePatch(g, C, m, b, y, x, rowIdx);
      done := done + 1;
      x := x + 1;
    }
  }

  // -------------------------------------------------------------- adjointness

  /** The Frobenius inner product: the sum of a(i, j) * e(i, j) over all cells. */
  function Frobenius(a: Mat, e: Mat): real
    requires Wf(a) && Wf(e) && a.rows == e.rows && a.cols == e.cols
  {
    Sum(Products(a.data, e.data), |a.data|)
  }

  /** The flat position of the cell a tap names in a rows x cols matrix; None for a padded tap or one outside it. */
  function Flat(t: Option<(nat, nat)>, rows: nat, cols: nat): (k: Option<nat>)
    ensures k.Some? ==> k.value < rows * cols
  {
    match t
    case None => None
    case Some((b, i)) =>
      if b < rows && i < cols then
        FlatIndex(b, i, rows, cols);
        Some(b * cols + i)
      else None
  }

  /** A deposit bumps the flat buffer at the tap's flat position. */
  lemma DepositFlat(t: Option<(nat, nat)>, acc: Mat, v: real)
    requires Wf(acc)
    ensures Deposit(t, acc, v).data == Bump(acc.data, Flat(t, acc.rows, acc.cols), v)
  {
  }

  /** The cell a tap reads is the flat buffer read at the tap's flat position. */
  lemma CellFlat(t: Option<(nat, nat)>, X: Mat)
    requires Wf(X)
    ensures Cell(t, X) == Read(X.data, Flat(t, X.rows, X.cols))
  {
  }

  /** Scattering the first n taps of row r bumps acc's buffer at the taps' flat positions by row r's entries. */
  lemma {:induction false} ScatterRowFlat(g: Geometry, C: Mat, acc: Mat, r: int, n: int, ks: seq<Option<nat>>, vs: seq<real>)
    requires g.Sound() && Wf(C) && Wf(acc) && 0 <= r < C.rows && 0 <= n <= C.cols && n <= |ks| && n <= |vs|
    requires forall q :: 0 <= q < n ==> ks[q] == Flat(Tap(g, r, q), acc.rows, acc.cols) && vs[q] == Get(C, r, q)
    ensures ScatterRow(g, C, acc, r, n).data == BumpAll(ks, vs, acc.data, n)
  {
    if n > 0 {
      ScatterRowFlat(g, C, acc, r, n - 1, ks, vs);
      DepositFlat(Tap(g, r, n - 1), ScatterRow(g, C, acc, r, n - 1), Get(C, r, n - 1));
    }
  }

  /** Row r of A and C, read at flat positions base + q, against the taps of row r. */
  lemma RowTaps(g: Geometry, X: Mat, A: Mat, C: Mat, r: int, base: int, ks: seq<Option<nat>>, vs: seq<real>)
    requires g.Sound() && Wf(X) && Wf(A) && Wf(C) && A.rows == C.rows && A.cols == C.cols && 0 <= r < C.rows
    requires base == r * C.cols && base + C.cols <= |C.data| && |A.data| == |C.data|
    requires |ks| == |vs| == C.cols
    requires forall q :: 0 <= q < C.cols ==> ks[q] == Flat(Tap(g, r, q), X.rows, X.cols) && vs[q] == Get(C, r, q)
    requires forall q :: 0 <= q < C.cols ==> Get(A, r, q) == Im2ColCell(g, X, r, q)
    ensures forall q :: 0 <= q < C.cols ==> A.data[base + q] == Read(X.data, ks[q]) && C.data[base + q] == vs[q]
  {
    assert r * A.cols == base;
    forall q | 0 <= q < C.cols
      ensures A.data[base + q] == Read(X.data, ks[q]) && C.data[base + q] == vs[q]
    {
      assert Get(A, r, q) == Im2ColCell(g, X, r, q);
      CellFlat(Tap(g, r, q), X);
    }
  }

  /**
   * Scattering row r of C adds row r's terms of the inner product of A and
   * C (flat positions base .. base + cols - 1), for an A whose row r holds
   * the cells im2col(X) reads.
   */
  lemma ScatterRowInner(g: Geometry, X: Mat, A: Mat, C: Mat, acc: Mat, r: int, base: int)
    requires g.Sound() && Wf(X) && Wf(A) && Wf(C) && A.rows == C.rows && A.cols == C.cols
    requires Wf(acc) && acc.rows == X.rows && acc.cols == X.cols && 0 <= r < C.rows
    requires base == r * C.cols && base + C.cols <= |C.data|
    requires forall q :: 0 <= q < C.cols ==> Get(A, r, q) == Im2ColCell(g, X, r, q)
    ensures Frobenius(X, ScatterRow(g, C, acc, r, C.cols)) ==
      Frobenius(X, acc) + (Sum(Products(A.data, C.data), base + C.cols) - Sum(Products(A.data, C.data), base))
  {
    ScatterRowSum(g, X, A, C, acc, r, base);
    FrobeniusData(X, ScatterRow(g, C, acc, r, C.cols), ScatterRow(g, C, acc, r, C.cols).data);
    FrobeniusData(X, acc, acc.data);
  }

  /** ScatterRowInner on the flat buffers. */
  lemma ScatterRowSum(g: Geometry, X: Mat, A: Mat, C: Mat, acc: Mat, r: int, base: int)
    requires g.Sound() && Wf(X) && Wf(A) && Wf(C) && A.rows == C.rows && A.cols == C.cols
    requires Wf(acc) && acc.rows == X.rows && acc.cols == X.cols && 0 <= r < C.rows
    requires base == r * C.cols && base + C.cols <= |C.data|
    requires forall q :: 0 <= q < C.cols ==> Get(A, r, q) == Im2ColCell(g, X, r, q)
    ensures Sum(Products(X.data, ScatterRow(g, C, acc, r, C.cols).data), |X.data|) ==
      Sum(Products(X.data, acc.data), |X.data|) + (Sum(Products(A.data, C.data), base + C.cols) - Sum(Products(A.data, C.data), base))
  {
    var ks := seq(C.cols, q requires 0 <= q < C.cols => Flat(Tap(g, r, q), X.rows, X.cols));
    var vs := seq(C.cols, q requires 0 <= q < C.cols => Get(C, r, q));
    RowTaps(g, X, A, C, r, base, ks, vs);
    RowBumps(g, C, acc, r, ks, vs, X.data, A.data, C.data, base);
  }

  /** Scattering row r bumps the buffer at the taps' flat positions, which moves the inner product with x by the row's terms. */
  lemma RowBumps(g: Geometry, C: Mat, acc: Mat, r: int, ks: seq<Option<nat>>, vs: seq<real>,
                 x: seq<real>, a: seq<real>, c: seq<real>, base: int)
    requires g.Sound() && Wf(C) && Wf(acc) && 0 <= r < C.rows && |ks| == |vs| == C.cols
    requires forall q :: 0 <= q < C.cols ==> ks[q] == Flat(Tap(g, r, q), acc.rows, acc.cols) && vs[q] == Get(C, r, q)
    requires |x| == |acc.data| && 0 <= base && base + C.cols <= |a| && |a| == |c|
    requires forall q :: 0 <= q < C.cols ==> a[base + q] == Read(x, ks[q]) && c[base + q] == vs[q]
    ensures Sum(Products(x, ScatterRow(g, C, acc, r, C.cols).data), |x|) ==
      Sum(Products(x, acc.data), |x|) + (Sum(Products(a, c), base + C.cols) - Sum(Products(a, c), base))
  {
    RowSum(g, C, acc, r, ks, vs, x);
    BumpAllDot(ks, vs, x, acc.data, a, c, base, C.cols);
  }

  lemma RowSum(g: Geometry, C: Mat, acc: Mat, r: int, ks: seq<Option<nat>>, vs: seq<real>, x: seq<real>)
    requires g.Sound() && Wf(C) && Wf(acc) && 0 <= r < C.rows && |ks| == |vs| == C.cols && |x| == |acc.data|
    requires forall q :: 0 <= q < C.cols ==> ks[q] == Flat(Tap(g, r, q), acc.rows, acc.cols) && vs[q] == Get(C, r, q)
    ensures Sum(Products(x, ScatterRow(g, C, acc, r, C.cols).data), |x|) == Sum(Products(x, BumpAll(ks, vs, acc.data, C.cols)), |x|)
  {
    ScatterRowFlat(g, C, acc, r, C.cols, ks, vs);
    SumCong(x, ScatterRow(g, C, acc, r, C.cols).data, BumpAll(ks, vs, acc.data, C.cols));
  }

  lemma FrobeniusData(X: Mat, M: Mat, z: seq<real>)
    requires Wf(X) && Wf(M) && M.rows == X.rows && M.cols == X.cols && M.data == z
    ensures Frobenius(X, M) == Sum(Products(X.data, z), |X.data|)
  {
  }

  /** Scattering the first n rows of C gives the first n rows' terms of the inner product of A and C, for A = im2col(X). */
  lemma {:induction false} ScatterRowsInner(g: Geometry, X: Mat, A: Mat, C: Mat, n: int)
    requires g.Sound() && Wf(X) && X.cols == g.ImageSize()
    requires Wf(A) && Wf(C) && A.rows == C.rows && A.cols == C.cols && 0 <= n <= C.rows
    requires forall r, q :: 0 <= r < C.rows && 0 <= q < C.cols ==> Get(A, r, q) == Im2ColCell(g, X, r, q)
    ensures n * C.cols <= |C.data|
    ensures Frobenius(X, ScatterRows(g, C, X.rows, n)) == Sum(Products(A.data, C.data), n * C.cols)
  {
    MulMono(n, C.rows, C.cols);
    if n == 0 {
      ProductsZeros(X.data, Zeros(X.rows, X.cols).data);
      SumZeros(Products(X.data, Zeros(X.rows, X.cols).data), |X.data|);
    } else {
      ScatterRowsInner(g, X, A, C, n - 1);
      NextMultiple(0, n - 1, C.cols);
      ScatterRowInner(g, X, A, C, ScatterRows(g, C, X.rows, n - 1), n - 1, (n - 1) * C.cols);
    }
  }

  /**
   * `col2im` is the adjoint of `im2col`: for an input X of depth * H * W
   * columns and any C of im2col's shape, the sum of im2col(X) .* C equals
   * the sum of X .* col2im(C), which is why `backward` can route the
   * column gradient through it.
   */
  lemma Col2ImAdjoint(g: Geometry, X: Mat, C: Mat)
    requires g.Sound() && Wf(X) && X.cols == g.ImageSize()
    requires Wf(C) && C.rows == X.rows * g.Pixels() && C.cols == g.FanIn()
    ensures Frobenius(Im2Col(g, X), C) == Frobenius(X, Col2Im(g, C, X.rows))
  {
    ScatterRowsInner(g, X, Im2Col(g, X), C, C.rows);
  }

  // --------------------------------------------------------------- reshapes

  /** A column index j below n * d splits into a quotient below n. */
  lemma SplitBound(j: nat, n: nat, d: nat)
    requires j < n * d
    ensures d > 0 && Split(j, d).0 < n
  {
    FlatSplit(j, n, d);
  }

  /**
   * Cell (b, j) of the sample layout of a pixel-major matrix a: for
   * j = f * pixels + p it is a(b * pixels + p, f); 0 off the shape.
   */
  function SampleCell(a: Mat, pixels: nat, b: int, j: int): real
    requires Wf(a)
  {
    if b < 0 || j < 0 || pixels == 0 then 0.0
    else
      var (f, p) := Split(j, pixels);
      if b * pixels + p < a.rows && f < a.cols then Get(a, b * pixels + p, f) else 0.0
  }

  /** The batch x (filters * pixels) sample layout of a (batch * pixels) x filters matrix. */
  function Samples(a: Mat, batch: nat, pixels: nat): (s: Mat)
    requires Wf(a)
    ensures Wf(s) && s.rows == batch && s.cols == a.cols * pixels
  {
    Tabulate(batch, a.cols * pixels, (b, j) => SampleCell(a, pixels, b, j))
  }

  /**
   * Cell (r, f) of the pixel-major layout of a sample-layout matrix s:
   * for r = b * pixels + p it is s(b, f * pixels + p); 0 off the shape.
   */
  function PixelCell(s: Mat, pixels: nat, r: int, f: int): real
    requires Wf(s)
  {
    if r < 0 || f < 0 || pixels == 0 then 0.0
    else
      var (b, p) := Split(r, pixels);
      if b < s.rows && f * pixels + p < s.cols then Get(s, b, f * pixels + p) else 0.0
  }

  /** The (rows * pixels) x filters pixel-major layout of a sample-layout matrix. */
  function PixelMajor(s: Mat, pixels: nat, filters: nat): (a: Mat)
    requires Wf(s)
    ensures Wf(a) && a.rows == s.rows * pixels && a.cols == filters
  {
    Tabulate(s.rows * pixels, filters, (r, f) => PixelCell(s, pixels, r, f))
  }

  /**
   * The reshape at the start of `backward` reads s(b, f * pixels + p) for
   * every sample, pixel and filter; it reads past the gradient's columns
   * exactly when some such read exists and the widest, f * pixels + p =
   * filters * pixels - 1, is out of range.
   */
  predicate ReshapeFails(s: Mat, pixels: nat, filters: nat)
  {
    s.rows > 0 && pixels > 0 && filters > 0 && s.cols < filters * pixels
  }

  lemma SampleAt(a: Mat, batch: nat, pixels: nat, b: nat, p: nat, f: nat)
    requires Wf(a) && a.rows == batch * pixels && b < batch && p < pixels && f < a.cols
    ensures b * pixels + p < a.rows && f * pixels + p < a.cols * pixels
    ensures SampleCell(a, pixels, b, f * pixels + p) == Get(a, b * pixels + p, f)
  {
    FlatIndex(b, p, batch, pixels);
    FlatIndex(f, p, a.cols, pixels);
    SplitOf(f, p, pixels);
  }

  lemma PixelAt(s: Mat, pixels: nat, b: nat, p: nat, f: nat)
    requires Wf(s) && b < s.rows && p < pixels && f * pixels + p < s.cols
    ensures b * pixels + p < s.rows * pixels
    ensures PixelCell(s, pixels, b * pixels + p, f) == Get(s, b, f * pixels + p)
  {
    FlatIndex(b, p, s.rows, pixels);
    SplitOf(b, p, pixels);
  }

  /** The sample layout, read back into pixel-major order, is the matrix it came from. */
  lemma PixelMajorOfSamples(a: Mat, batch: nat, pixels: nat)
    requires Wf(a) && a.rows == batch * pixels
    ensures PixelMajor(Samples(a, batch, pixels), pixels, a.cols) == a
  {
    var s := Samples(a, batch, pixels);
    var back := PixelMajor(s, pixels, a.cols);
    forall r, f | 0 <= r < a.rows && 0 <= f < a.cols
      ensures Get(back, r, f) == Get(a, r, f)
    {
      SplitBound(r, batch, pixels);
      var (b, p) := Split(r, pixels);
      SampleAt(a, batch, pixels, b, p, f);
      PixelAt(s, pixels, b, p, f);
    }
    Ext(back, a);
  }

  /** A gradient exactly filters * pixels wide, read into pixel-major order and back, is unchanged. */
  lemma SamplesOfPixelMajor(s: Mat, pixels: nat, filters: nat)
    requires Wf(s) && s.cols == filters * pixels
    ensures Samples(PixelMajor(s, pixels, filters), s.rows, pixels) == s
  {
    var a := PixelMajor(s, pixels, filters);
    var back := Samples(a, s.rows, pixels);
    forall b, j | 0 <= b < s.rows && 0 <= j < s.cols
      ensures Get(back, b, j) == Get(s, b, j)
    {
      SplitBound(j, filters, pixels);
      var (f, p) := Split(j, pixels);
      PixelAt(s, pixels, b, p, f);
      SampleAt(a, s.rows, pixels, b, p, f);
    }
    Ext(back, s);
  }

  /** Column j of a sample row is written once pixel p's filters below f are. */
  ghost predicate Written(pixels: nat, j: int, p: int, f: int)
  {
    pixels > 0 && j >= 0 && (var (fj, pj) := Split(j, pixels); pj < p || (pj == p && fj < f))
  }

  /** Writing column f * pixels + p is the one step from filter f to f + 1. */
  lemma WrittenStep(pixels: nat, j: nat, p: nat, f: nat)
    requires p < pixels
    ensures Written(pixels, j, p, f + 1) <==> Written(pixels, j, p, f) || j == f * pixels + p
  {
    SplitOf(f, p, pixels);
  }

  /**
   * The last step of `forward`: for each sample b and pixel p in order, with
   * `flat_row` counting the pixel-major rows, every filter f writes
   * final_output(b, f * pixels + p) = a(flat_row, f).
   */
  method ToSamples(a: Mat, batch: nat, pixels: nat) returns (s: Mat)
    requires Wf(a) && a.rows == batch * pixels
    ensures s == Samples(a, batch, pixels)
  {
    s := Zeros(batch, a.cols * pixels);
    var flatRow := 0;
    var b := 0;
    while b < batch
      invariant 0 <= b <= batch && flatRow == b * pixels
      invariant Wf(s) && s.rows == batch && s.cols == a.cols * pixels
      invariant forall i, j :: 0 <= i < batch && 0 <= j < s.cols ==>
        Get(s, i, j) == if i < b then SampleCell(a, pixels, i, j) else 0.0
    {
      s, flatRow := ToSamplesRow(a, batch, pixels, s, b, flatRow);
      NextMultiple(0, b, pixels);
      b := b + 1;
    }
    Ext(s, Samples(a, batch, pixels));
  }

  /** The pixels of sample b, in order, each writing its filters into row b. */
  method ToSamplesRow(a: Mat, batch: nat, pixels: nat, s0: Mat, b: nat, flatRow0: nat) returns (s: Mat, flatRow: nat)
    requires Wf(a) && a.rows == batch * pixels && b < batch && flatRow0 == b * pixels
    requires Wf(s0) && s0.rows == batch && s0.cols == a.cols * pixels
    requires forall i, j :: 0 <= i < batch && 0 <= j < s0.cols ==>
      Get(s0, i, j) == if i < b then SampleCell(a, pixels, i, j) else 0.0
    ensures flatRow == flatRow0 + pixels
    ensures Wf(s) && s.rows == batch && s.cols == s0.cols
    ensures forall i, j :: 0 <= i < batch && 0 <= j < s.cols ==>
      Get(s, i, j) == if i <= b then SampleCell(a, pixels, i, j) else 0.0
  {
    s, flatRow := s0, flatRow0;
    var p := 0;
    while p < pixels
      invariant 0 <= p <= pixels && flatRow == flatRow0 + p
      invariant Wf(s) && s.rows == batch && s.cols == s0.cols
      invariant forall i, j :: 0 <= i < batch && 0 <= j < s.cols ==>
        Get(s, i, j) == if i < b || (i == b && Written(pixels, j, p, 0)) then SampleCell(a, pixels, i, j) else 0.0
    {
      s := ToSamplesPixel(a, batch, pixels, s, b, p, flatRow);
      flatRow := flatRow + 1;
      p := p + 1;
    }
    forall j | 0 <= j < s.cols
      ensures Written(pixels, j, pixels, 0)
    {
      SplitBound(j, a.cols, pixels);
    }
  }

  /** The filters of pixel p of sample b: final_output(b, f * pixels + p) = a(flat_row, f). */
  method ToSamplesPixel(a: Mat, batch: nat, pixels: nat, s0: Mat, b: nat, p: nat, flatRow: nat) returns (s: Mat)
    requires Wf(a) && a.rows == batch * pixels && b < batch && p < pixels && flatRow == b * pixels + p
    requires Wf(s0) && s0.rows == batch && s0.cols == a.cols * pixels
    requires forall i, j :: 0 <= i < batch && 0 <= j < s0.cols ==>
      Get(s0, i, j) == if i < b || (i == b && Written(pixels, j, p, 0)) then SampleCell(a, pixels, i, j) else 0.0
    ensures Wf(s) && s.rows == batch && s.cols == s0.cols
    ensures forall i, j :: 0 <= i < batch && 0 <= j < s.cols ==>
      Get(s, i, j) == if i < b || (i == b && Written(pixels, j, p + 1, 0)) then SampleCell(a, pixels, i, j) else 0.0
  {
    s := s0;
    var f := 0;
    while f < a.cols
      invariant 0 <= f <= a.cols
      invariant Wf(s) && s.rows == batch && s.cols == s0.cols
      invariant forall i, j :: 0 <= i < batch && 0 <= j < s.cols ==>
        Get(s, i, j) == if i < b || (i == b && Written(pixels, j, p, f)) then SampleCell(a, pixels, i, j) else 0.0
    {
      SampleAt(a, batch, pixels, b, p, f);
      var s1 := Set(s, b, f * pixels + p, Get(a, flatRow, f));
      forall i, j | 0 <= i < batch && 0 <= j < s.cols
        ensures Get(s1, i, j) ==
          if i < b || (i == b && Written(pixels, j, p, f + 1)) then SampleCell(a, pixels, i, j) else 0.0
      {
        WrittenStep(pixels, j, p, f);
      }
      s := s1;
      f := f + 1;
    }
    forall j | 0 <= j < s.cols
      ensures Written(pixels, j, p, a.cols) == Written(pixels, j, p + 1, 0)
    {
      SplitBound(j, a.cols, pixels);
    }
  }

  /**
   * The first step of `backward`: a (rows * pixels) x filters buffer whose
   * cell (flat_row, f) is read from s(b, f * pixels + p), sample by sample
   * and pixel by pixel; a read past s's columns throws.
   */
  method FromSamples(s: Mat, pixels: nat, filters: nat) returns (r: Result<Mat>)
    requires Wf(s)
    ensures r.Err? <==> ReshapeFails(s, pixels, filters)
    ensures r.Ok? ==> r.value == PixelMajor(s, pixels, filters)
  {
    var m := Zeros(s.rows * pixels, filters);
    var flatRow := 0;
    var b := 0;
    while b < s.rows
      invariant 0 <= b <= s.rows && flatRow == b * pixels
      invariant Wf(m) && m.rows == s.rows * pixels && m.cols == filters
      invariant forall i, f :: 0 <= i < m.rows && 0 <= f < filters ==>
        Get(m, i, f) == if i < flatRow then PixelCell(s, pixels, i, f) else 0.0
      invariant b > 0 && pixels > 0 && filters > 0 ==> filters * pixels <= s.cols
    {
      var ok;
      m, flatRow, ok := FromSamplesRow(s, pixels, filters, m, b, flatRow);
      if !ok {
        return Err("Matrix indices out of bounds");
      }
      NextMultiple(0, b, pixels);
      b := b + 1;
    }
    Ext(m, PixelMajor(s, pixels, filters));
    r := Ok(m);
  }

  /** The pixels of sample b: false when a read falls past s's columns. */
  method FromSamplesRow(s: Mat, pixels: nat, filters: nat, m0: Mat, b: nat, flatRow0: nat)
    returns (m: Mat, flatRow: nat, ok: bool)
    requires Wf(s) && b < s.rows && flatRow0 == b * pixels
    requires Wf(m0) && m0.rows == s.rows * pixels && m0.cols == filters
    requires forall i, f :: 0 <= i < m0.rows && 0 <= f < filters ==>
      Get(m0, i, f) == if i < flatRow0 then PixelCell(s, pixels, i, f) else 0.0
    ensures !ok ==> ReshapeFails(s, pixels, filters)
    ensures ok ==> flatRow == flatRow0 + pixels && (pixels > 0 && filters > 0 ==> filters * pixels <= s.cols)
    ensures Wf(m) && m.rows == m0.rows && m.cols == filters
    ensures ok ==> forall i, f :: 0 <= i < m.rows && 0 <= f < filters ==>
      Get(m, i, f) == if i < flatRow then PixelCell(s, pixels, i, f) else 0.0
  {
    m, flatRow, ok := m0, flatRow0, true;
    var p := 0;
    while p < pixels
      invariant 0 <= p <= pixels && flatRow == flatRow0 + p
      invariant Wf(m) && m.rows == m0.rows && m.cols == filters
      invariant forall i, f :: 0 <= i < m.rows && 0 <= f < filters ==>
        Get(m, i, f) == if i < flatRow then PixelCell(s, pixels, i, f) else 0.0
      invariant p > 0 && filters > 0 ==> (filters - 1) * pixels + p - 1 < s.cols
    {
      FlatIndex(b, p, s.rows, pixels);
      m, ok := FromSamplesPixel(s, pixels, filters, m, b, p, flatRow);
      if !ok {
        return;
      }
      flatRow := flatRow + 1;
      p := p + 1;
    }
    if filters > 0 {
      NextMultiple(0, filters - 1, pixels);
    }
  }

  /** The filters of pixel p of sample b: dZ_flat(flat_row, f) = s(b, f * pixels + p). */
  method FromSamplesPixel(s: Mat, pixels: nat, filters: nat, m0: Mat, b: nat, p: nat, flatRow: nat)
    returns (m: Mat, ok: bool)
    requires Wf(s) && b < s.rows && p < pixels && flatRow == b * pixels + p && flatRow < s.rows * pixels
    requires Wf(m0) && m0.rows == s.rows * pixels && m0.cols == filters
    requires forall i, f :: 0 <= i < m0.rows && 0 <= f < filters ==>
      Get(m0, i, f) == if i < flatRow then PixelCell(s, pixels, i, f) else 0.0
    ensures !ok ==> ReshapeFails(s, pixels, filters)
    ensures ok ==> filters > 0 ==> (filters - 1) * pixels + p < s.cols
    ensures Wf(m) && m.rows == m0.rows && m.cols == filters
    ensures ok ==> forall i, f :: 0 <= i < m.rows && 0 <= f < filters ==>
      Get(m, i, f) == if i <= flatRow then PixelCell(s, pixels, i, f) else 0.0
  {
    m := m0;
    var f := 0;
    while f < filters
      invariant 0 <= f <= filters
      invariant Wf(m) && m.rows == m0.rows && m.cols == filters
      invariant forall i, f' :: 0 <= i < m.rows && 0 <= f' < filters ==>
        Get(m, i, f') == if i < flatRow || (i == flatRow && f' < f) then PixelCell(s, pixels, i, f') else 0.0
      invariant f > 0 ==> (f - 1) * pixels + p < s.cols
    {
      var col := f * pixels + p;
      if col >= s.cols {
        FlatIndex(f, p, filters, pixels);
        return m, false;
      }
      PixelAt(s, pixels, b, p, f);
      m := Set(m, flatRow, f, Get(s, b, col));
      f := f + 1;
    }
    ok := true;
  }
}
