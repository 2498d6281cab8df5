// The pooling layer of src/neuralnetwork/Pooling2DLayer.cpp: MAX pooling
// keeps the largest cell of each pool x pool window (and, when training,
// the flat index of the first cell that attains it), AVERAGE pooling the
// window sum times 1 / pool^2; `backward` routes each output gradient to
// the cached argmax, or spreads it over the window. The nested loops are
// run sequentially.
module Poolings {
  import opened Common
  import opened MatrixSpec
  import opened FlatSums
  import Layers
  import Convolutions

  datatype PoolingType = MaxPooling | AveragePooling

  /** depth, input_height, input_width, pool_size and stride of a `Pooling2DLayer`. */
  datatype PoolGeometry = PoolGeometry(depth: nat, height: nat, width: nat, pool: nat, stride: nat)
  {
    /** `(in - pool_size) / stride + 1`, with C++'s truncating division. */
    function OutExtent(n: int): int
      requires stride > 0
    {
      CDiv(n - pool, stride) + 1
    }

    /**
     * A geometry the layer can run on: a positive stride (the division
     * above) and a non-empty window no larger than the input.
     */
    predicate Sound()
    {
      stride > 0 && 0 < pool <= height && pool <= width
    }

    function OutHeight(): (n: nat)
      requires Sound()
      ensures n >= 1
    {
      OutExtent(height)
    }

    function OutWidth(): (n: nat)
      requires Sound()
      ensures n >= 1
    {
      OutExtent(width)
    }

    /** `output_height * output_width`. */
    function Pixels(): nat
      requires Sound()
    {
      OutHeight() * OutWidth()
    }

    /** `depth * output_pixels`: the output cells of one sample. */
    function OutSize(): nat
      requires Sound()
    {
      depth * Pixels()
    }

    /** `depth * input_height * input_width`: the input cells of one sample. */
    function ImageSize(): nat
    {
      depth * height * width
    }

    /** `(d * input_height * input_width) + (wy * input_width) + wx`. */
    function Flat(d: int, wy: int, wx: int): int
    {
      d * height * width + wy * width + wx
    }

    /** `(d * output_height * output_width) + (y * output_width) + x`. */
    function OutIndex(d: int, y: int, x: int): int
      requires Sound()
    {
      d * OutHeight() * OutWidth() + y * OutWidth() + x
    }

    /** One more than the largest flat index `forward` reads; 0 when it reads nothing. */
    function Reach(): (n: nat)
      requires Sound()
      ensures n <= ImageSize()
    {
      if depth == 0 then 0
      else
        FlatBound(depth - 1, (OutHeight() - 1) * stride + pool - 1, (OutWidth() - 1) * stride + pool - 1, depth, height, width);
        Flat(depth - 1, (OutHeight() - 1) * stride + pool - 1, (OutWidth() - 1) * stride + pool - 1) + 1
    }
  }

  /**
   * The output extent is at least one, and every window start y * stride
   * leaves room for a whole window: `std::min` never clips a window.
   */
  lemma WindowInside(g: PoolGeometry, n: nat, y: nat)
    requires g.Sound() && g.pool <= n && y < g.OutExtent(n)
    ensures g.OutExtent(n) >= 1 && y * g.stride + g.pool <= n
  {
    var q := (n - g.pool) / g.stride;
    DivMod(n - g.pool, g.stride);
    MulMono(y, q, g.stride);
  }

  /** A flat index of an in-range cell is below the image size, and not negative. */
  lemma FlatBound(d: nat, wy: nat, wx: nat, depth: nat, h: nat, w: nat)
    requires d < depth && wy < h && wx < w
    ensures 0 <= d * h * w + wy * w + wx < depth * h * w
  {
    Convolutions.Radix3(d, wy, wx, depth, h, w);
    Convolutions.Assoc(d, h, w);
    Convolutions.Assoc(depth, h, w);
  }

  /** Flat indices grow with each coordinate. */
  lemma FlatMono(d: nat, wy: nat, wx: nat, d2: nat, wy2: nat, wx2: nat, h: nat, w: nat)
    requires d <= d2 && wy <= wy2 && wx <= wx2
    ensures 0 <= d * h * w + wy * w + wx <= d2 * h * w + wy2 * w + wx2
  {
    Convolutions.Assoc(d, h, w);
    Convolutions.Assoc(d2, h, w);
    MulMono(d, d2, h * w);
    MulMono(wy, wy2, w);
  }

  /** A read of window cell (wy, wx) of output pixel (y, x) of channel d stays below `Reach`. */
  lemma ReadInReach(g: PoolGeometry, d: nat, y: nat, x: nat, wy: nat, wx: nat)
    requires g.Sound() && d < g.depth && y < g.OutHeight() && x < g.OutWidth()
    requires y * g.stride <= wy < y * g.stride + g.pool && x * g.stride <= wx < x * g.stride + g.pool
    ensures 0 <= g.Flat(d, wy, wx) < g.Reach() <= g.ImageSize()
  {
    var oh, ow := g.OutHeight(), g.OutWidth();
    MulMono(y, oh - 1, g.stride);
    MulMono(x, ow - 1, g.stride);
    FlatMono(d, wy, wx, g.depth - 1, (oh - 1) * g.stride + g.pool - 1, (ow - 1) * g.stride + g.pool - 1,
             g.height, g.width);
  }

  /** The output position (d, y, x) that output index o names. */
  function OutPos(g: PoolGeometry, o: int): (nat, nat, nat)
    requires g.Sound()
  {
    if o < 0 then (0, 0, 0)
    else
      var (dy, x) := Convolutions.Split(o, g.OutWidth());
      var (d, y) := Convolutions.Split(dy, g.OutHeight());
      (d, y, x)
  }

  /** `out_idx` of output pixel (y, x) of channel d: in range, and decoded back by `OutPos`. */
  lemma OutPosOf(g: PoolGeometry, d: nat, y: nat, x: nat)
    requires g.Sound() && d < g.depth && y < g.OutHeight() && x < g.OutWidth()
    ensures g.OutIndex(d, y, x) == d * g.Pixels() + y * g.OutWidth() + x
    ensures 0 <= g.OutIndex(d, y, x) < g.OutSize()
    ensures OutPos(g, g.OutIndex(d, y, x)) == (d, y, x)
  {
    var oh, ow := g.OutHeight(), g.OutWidth();
    Convolutions.Radix3(d, y, x, g.depth, oh, ow);
    Convolutions.Assoc(d, oh, ow);
    Convolutions.SplitOf(d * oh + y, x, ow);
    Convolutions.SplitOf(d, y, oh);
  }

  /** The input position (d, iy, ix) that flat input index i names. */
  function InPos(g: PoolGeometry, i: int): (nat, nat, nat)
    requires g.Sound()
  {
    if i < 0 then (0, 0, 0)
    else
      var (dy, ix) := Convolutions.Split(i, g.width);
      var (d, iy) := Convolutions.Split(dy, g.height);
      (d, iy, ix)
  }

  /** `flat_idx` of an input cell, decoded back by `InPos`; any index InPos decodes to (d, iy, ix) is that cell's. */
  lemma InPosOf(g: PoolGeometry, d: nat, iy: nat, ix: nat, i: int)
    requires g.Sound() && iy < g.height && ix < g.width && 0 <= i
    ensures InPos(g, g.Flat(d, iy, ix)) == (d, iy, ix)
    ensures InPos(g, i) == (d, iy, ix) ==> i == g.Flat(d, iy, ix)
  {
    var h, w := g.height, g.width;
    Convolutions.Assoc(d, h, w);
    assert g.Flat(d, iy, ix) == (d * h + iy) * w + ix;
    Convolutions.SplitOf(d * h + iy, ix, w);
    Convolutions.SplitOf(d, iy, h);
  }

  // ------------------------------------------------------------- forward

  /** Input cell (wy, wx) of channel d of sample b; 0 off the input. */
  function InCell(g: PoolGeometry, X: Mat, b: int, d: int, wy: int, wx: int): real
    requires Wf(X)
  {
    var i := g.Flat(d, wy, wx);
    if 0 <= b < X.rows && 0 <= i < X.cols then Get(X, b, i) else 0.0
  }

  /** The running maximum of a window scan: the value and the cell it was read from. */
  datatype Best = Best(val: real, wy: int, wx: int)

  /**
   * One step of the MAX scan. `max_val` starts at -infinity, so the first
   * cell always replaces it (None stands for that start); after that only
   * a strictly larger value does.
   */
  function Better(acc: Option<Best>, v: real, wy: int, wx: int): Option<Best>
  {
    if acc.None? || v > acc.value.val then Some(Best(v, wy, wx)) else acc
  }

  /** The MAX scan from acc over cells (wy, x0) .. (wy, x0 + n - 1). */
  function ScanRow(g: PoolGeometry, X: Mat, b: int, d: int, wy: int, x0: int, n: nat, acc: Option<Best>): Option<Best>
    requires Wf(X)
  {
    if n == 0 then acc
    else Better(ScanRow(g, X, b, d, wy, x0, n - 1, acc), InCell(g, X, b, d, wy, x0 + n - 1), wy, x0 + n - 1)
  }

  /** The MAX scan over the first m rows of the window at (y0, x0). */
  function ScanRows(g: PoolGeometry, X: Mat, b: int, d: int, y0: int, x0: int, m: nat): Option<Best>
    requires Wf(X)
  {
    if m == 0 then None
    else ScanRow(g, X, b, d, y0 + m - 1, x0, g.pool, ScanRows(g, X, b, d, y0, x0, m - 1))
  }

  /** Cell (wy, wx) of the window at (y0, x0) comes before (ry, rx) in row-major order. */
  predicate Visited(g: PoolGeometry, y0: int, x0: int, wy: int, wx: int, ry: int, rx: int)
  {
    y0 <= wy < y0 + g.pool && x0 <= wx < x0 + g.pool && (wy < ry || (wy == ry && wx < rx))
  }

  /**
   * acc is the first maximum of the window cells visited before (ry, rx):
   * a visited cell, no smaller than any visited cell and larger than every
   * visited cell before it; None when nothing was visited (the window's
   * first cell, which precedes all others, was not).
   */
  ghost predicate Leads(g: PoolGeometry, X: Mat, b: int, d: int, y0: int, x0: int, acc: Option<Best>, ry: int, rx: int)
    requires Wf(X)
  {
    match acc
    case None => !Visited(g, y0, x0, y0, x0, ry, rx)
    case Some(best) =>
      Visited(g, y0, x0, best.wy, best.wx, ry, rx) && best.val == InCell(g, X, b, d, best.wy, best.wx) &&
      forall wy, wx :: Visited(g, y0, x0, wy, wx, ry, rx) ==>
        InCell(g, X, b, d, wy, wx) <= best.val &&
        (wy < best.wy || (wy == best.wy && wx < best.wx) ==> InCell(g, X, b, d, wy, wx) < best.val)
  }

  /** One MAX step at window cell (wy, wx) keeps `Leads`, one cell further on. */
  lemma BetterLeads(g: PoolGeometry, X: Mat, b: int, d: int, y0: int, x0: int, acc: Option<Best>, wy: int, wx: int)
    requires Wf(X) && y0 <= wy < y0 + g.pool && x0 <= wx < x0 + g.pool
    requires Leads(g, X, b, d, y0, x0, acc, wy, wx)
    ensures Leads(g, X, b, d, y0, x0, Better(acc, InCell(g, X, b, d, wy, wx), wy, wx), wy, wx + 1)
  {
    var v := InCell(g, X, b, d, wy, wx);
    var acc' := Better(acc, v, wy, wx);
    forall wy', wx' | Visited(g, y0, x0, wy', wx', wy, wx + 1)
      ensures InCell(g, X, b, d, wy', wx') <= acc'.value.val
      ensures wy' < acc'.value.wy || (wy' == acc'.value.wy && wx' < acc'.value.wx) ==>
                InCell(g, X, b, d, wy', wx') < acc'.value.val
    {
      if wy' != wy || wx' != wx {
        assert Visited(g, y0, x0, wy', wx', wy, wx);
      }
    }
  }

  lemma {:induction false} ScanRowLeads(g: PoolGeometry, X: Mat, b: int, d: int, y0: int, x0: int, wy: int, n: nat,
                                        acc: Option<Best>)
    requires Wf(X) && y0 <= wy < y0 + g.pool && n <= g.pool
    requires Leads(g, X, b, d, y0, x0, acc, wy, x0)
    ensures Leads(g, X, b, d, y0, x0, ScanRow(g, X, b, d, wy, x0, n, acc), wy, x0 + n)
  {
    if n > 0 {
      var prev, wx := ScanRow(g, X, b, d, wy, x0, n - 1, acc), x0 + n - 1;
      assert ScanRow(g, X, b, d, wy, x0, n, acc) == Better(prev, InCell(g, X, b, d, wy, wx), wy, wx);
      assert wx + 1 == x0 + n && x0 <= wx < x0 + g.pool;
      ScanRowLeads(g, X, b, d, y0, x0, wy, n - 1, acc);
      BetterLeads(g, X, b, d, y0, x0, prev, wy, wx);
    }
  }

  /** Having visited all of window row wy is having visited everything before row wy + 1. */
  lemma LeadsNextRow(g: PoolGeometry, X: Mat, b: int, d: int, y0: int, x0: int, acc: Option<Best>, wy: int)
    requires Wf(X) && Leads(g, X, b, d, y0, x0, acc, wy, x0 + g.pool)
    ensures Leads(g, X, b, d, y0, x0, acc, wy + 1, x0)
  {
    if acc.Some? {
      var best := acc.value;
      forall wy', wx' | Visited(g, y0, x0, wy', wx', wy + 1, x0)
        ensures InCell(g, X, b, d, wy', wx') <= best.val
        ensures wy' < best.wy || (wy' == best.wy && wx' < best.wx) ==> InCell(g, X, b, d, wy', wx') < best.val
      {
        assert Visited(g, y0, x0, wy', wx', wy, x0 + g.pool);
      }
    }
  }

  lemma {:induction false} ScanRowsLeads(g: PoolGeometry, X: Mat, b: int, d: int, y0: int, x0: int, m: nat)
    requires Wf(X) && m <= g.pool
    ensures Leads(g, X, b, d, y0, x0, ScanRows(g, X, b, d, y0, x0, m), y0 + m, x0)
  {
    if m > 0 {
      var wy := y0 + m - 1;
      ScanRowsLeads(g, X, b, d, y0, x0, m - 1);
      var acc := ScanRows(g, X, b, d, y0, x0, m - 1);
      ScanRowLeads(g, X, b, d, y0, x0, wy, g.pool, acc);
      LeadsNextRow(g, X, b, d, y0, x0, ScanRow(g, X, b, d, wy, x0, g.pool, acc), wy);
    }
  }

  /**
   * The MAX scan of a whole window finds its first maximum in row-major
   * order: a cell of the window whose value no window cell exceeds, and
   * every window cell before it is strictly smaller.
   */
  lemma WindowMaxIsFirstMax(g: PoolGeometry, X: Mat, b: int, d: int, y0: int, x0: int)
    requires Wf(X) && g.pool > 0
    ensures ScanRows(g, X, b, d, y0, x0, g.pool).Some?
    ensures
      var best := ScanRows(g, X, b, d, y0, x0, g.pool).value;
      y0 <= best.wy < y0 + g.pool && x0 <= best.wx < x0 + g.pool &&
      best.val == InCell(g, X, b, d, best.wy, best.wx) &&
      forall wy, wx :: y0 <= wy < y0 + g.pool && x0 <= wx < x0 + g.pool ==>
        InCell(g, X, b, d, wy, wx) <= best.val &&
        (wy < best.wy || (wy == best.wy && wx < best.wx) ==> InCell(g, X, b, d, wy, wx) < best.val)
  {
    ScanRowsLeads(g, X, b, d, y0, x0, g.pool);
    assert Visited(g, y0, x0, y0, x0, y0 + g.pool, x0);
  }

  /** The first maximum of a whole window is one of its cells. */
  lemma WindowMaxCell(g: PoolGeometry, X: Mat, b: int, d: int, y0: int, x0: int)
    requires Wf(X) && g.pool > 0
    ensures ScanRows(g, X, b, d, y0, x0, g.pool).Some?
    ensures y0 <= ScanRows(g, X, b, d, y0, x0, g.pool).value.wy < y0 + g.pool
    ensures x0 <= ScanRows(g, X, b, d, y0, x0, g.pool).value.wx < x0 + g.pool
  {
    WindowMaxIsFirstMax(g, X, b, d, y0, x0);
  }

  /** The AVERAGE sum over cells (wy, x0) .. (wy, x0 + n - 1). */
  function SumRow(g: PoolGeometry, X: Mat, b: int, d: int, wy: int, x0: int, n: nat): real
    requires Wf(X)
  {
    if n == 0 then 0.0 else SumRow(g, X, b, d, wy, x0, n - 1) + InCell(g, X, b, d, wy, x0 + n - 1)
  }

  /** The AVERAGE sum over the first m rows of the window at (y0, x0). */
  function SumRows(g: PoolGeometry, X: Mat, b: int, d: int, y0: int, x0: int, m: nat): real
    requires Wf(X)
  {
    if m == 0 then 0.0 else SumRows(g, X, b, d, y0, x0, m - 1) + SumRow(g, X, b, d, y0 + m - 1, x0, g.pool)
  }

  /** `1.0f / (pool_size * pool_size)`. */
  function Scale(g: PoolGeometry): real
    requires g.pool > 0
  {
    1.0 / ((g.pool * g.pool) as real)
  }

  /** A window sum (or a gradient) times the AVERAGE scale `1 / pool^2`. */
  function Scaled(g: PoolGeometry, s: real): real
    requires g.pool > 0
  {
    s * Scale(g)
  }

  /** The MAX scan of the window of output pixel (y, x) of channel d, at (y * stride, x * stride). */
  function WindowBest(g: PoolGeometry, X: Mat, b: int, d: int, y: int, x: int): Option<Best>
    requires Wf(X)
  {
    ScanRows(g, X, b, d, y * g.stride, x * g.stride, g.pool)
  }

  /** MAX pooling of output pixel (y, x) of channel d: the maximum of its window. */
  function WindowMax(g: PoolGeometry, X: Mat, b: int, d: int, y: int, x: int): real
    requires Wf(X)
  {
    match WindowBest(g, X, b, d, y, x)
    case Some(best) => best.val
    case None => 0.0
  }

  /** The index MAX pooling caches for output pixel (y, x) of channel d: the flat index of the first maximum. */
  function WindowArg(g: PoolGeometry, X: Mat, b: int, d: int, y: int, x: int): int
    requires Wf(X)
  {
    match WindowBest(g, X, b, d, y, x)
    case Some(best) => g.Flat(d, best.wy, best.wx)
    case None => -1
  }

  /** AVERAGE pooling of output pixel (y, x) of channel d: its window sum times 1 / pool^2. */
  function WindowAvg(g: PoolGeometry, X: Mat, b: int, d: int, y: int, x: int): real
    requires Wf(X) && g.pool > 0
  {
    Scaled(g, SumRows(g, X, b, d, y * g.stride, x * g.stride, g.pool))
  }

  function PixelValue(g: PoolGeometry, t: PoolingType, X: Mat, b: int, d: int, y: int, x: int): real
    requires Wf(X) && g.pool > 0
  {
    match t
    case MaxPooling => WindowMax(g, X, b, d, y, x)
    case AveragePooling => WindowAvg(g, X, b, d, y, x)
  }

  /** Output cell o of sample b: the pooled window of the pixel o names. */
  function PooledCell(g: PoolGeometry, t: PoolingType, X: Mat, b: int, o: int): real
    requires g.Sound() && Wf(X)
  {
    var (d, y, x) := OutPos(g, o);
    PixelValue(g, t, X, b, d, y, x)
  }

  /** The cached index of output cell o of sample b. */
  function ArgCell(g: PoolGeometry, X: Mat, b: int, o: int): int
    requires g.Sound() && Wf(X)
  {
    var (d, y, x) := OutPos(g, o);
    WindowArg(g, X, b, d, y, x)
  }

  /** What `forward` returns: batch x (depth * pixels), one pooled window per cell. */
  function Pooled(g: PoolGeometry, t: PoolingType, X: Mat): (m: Mat)
    requires g.Sound() && Wf(X)
    ensures Wf(m) && m.rows == X.rows && m.cols == g.OutSize()
  {
    Tabulate(X.rows, g.OutSize(), (b, o) => PooledCell(g, t, X, b, o))
  }

  /** The index cache a training MAX `forward` leaves: one argmax per output cell. */
  function ArgCache(g: PoolGeometry, X: Mat): (c: seq<seq<int>>)
    requires g.Sound() && Wf(X)
    ensures |c| == X.rows && forall b :: 0 <= b < X.rows ==> |c[b]| == g.OutSize()
  {
    seq(X.rows, b => seq(g.OutSize(), o => ArgCell(g, X, b, o)))
  }

  /** `max_indices_cache.assign(batch, vector<int>(output_cols, -1))`. */
  function Unset(rows: nat, cols: nat): (c: seq<seq<int>>)
    ensures |c| == rows && forall b :: 0 <= b < rows ==> c[b] == seq(cols, _ => -1)
  {
    seq(rows, _ => seq(cols, _ => -1))
  }

  /** The scan state (max_val, max_idx) stands for acc: max_idx is -1 before the first cell. */
  ghost predicate Tracks(g: PoolGeometry, d: int, acc: Option<Best>, maxVal: real, maxIdx: int)
  {
    match acc
    case None => maxIdx == -1
    case Some(best) => maxVal == best.val && maxIdx == g.Flat(d, best.wy, best.wx) && maxIdx != -1
  }

  /** The innermost MAX loop: cells (wy, startX) .. (wy, endX - 1). */
  method MaxRow(g: PoolGeometry, X: Mat, b: nat, d: nat, y: nat, x: nat, wy: nat, endX: int,
                ghost acc0: Option<Best>, maxVal0: real, maxIdx0: int) returns (maxVal: real, maxIdx: int)
    requires g.Sound() && Wf(X) && b < X.rows && X.cols >= g.Reach()
    requires d < g.depth && y < g.OutHeight() && x < g.OutWidth()
    requires y * g.stride <= wy < y * g.stride + g.pool && endX == x * g.stride + g.pool
    requires Tracks(g, d, acc0, maxVal0, maxIdx0)
    ensures Tracks(g, d, ScanRow(g, X, b, d, wy, x * g.stride, g.pool, acc0), maxVal, maxIdx)
  {
    var x0: nat := x * g.stride;
    maxVal, maxIdx := maxVal0, maxIdx0;
    var wx: nat := x0;
    while wx < endX
      invariant x0 <= wx <= endX
      invariant Tracks(g, d, ScanRow(g, X, b, d, wy, x0, wx - x0, acc0), maxVal, maxIdx)
    {
      ReadInReach(g, d, y, x, wy, wx);
      var flatIdx := d * g.height * g.width + wy * g.width + wx;
      var val := Get(X, b, flatIdx);
      if maxIdx == -1 || val > maxVal {
        maxVal, maxIdx := val, flatIdx;
      }
      wx := wx + 1;
    }
  }

  /**
   * The MAX branch for one output pixel: `max_val` from -infinity (here:
   * `max_idx` still -1) over the window rows start_y .. end_y - 1.
   */
  method MaxWindow(g: PoolGeometry, X: Mat, b: nat, d: nat, y: nat, x: nat) returns (maxVal: real, maxIdx: int)
    requires g.Sound() && Wf(X) && b < X.rows && X.cols >= g.Reach()
    requires d < g.depth && y < g.OutHeight() && x < g.OutWidth()
    ensures Tracks(g, d, ScanRows(g, X, b, d, y * g.stride, x * g.stride, g.pool), maxVal, maxIdx)
  {
    var startY: nat, startX: nat := y * g.stride, x * g.stride;
    WindowInside(g, g.height, y);
    WindowInside(g, g.width, x);
    var endY, endX := Min(startY + g.pool, g.height), Min(startX + g.pool, g.width);
    maxVal, maxIdx := 0.0, -1;
    var wy: nat := startY;
    while wy < endY
      invariant startY <= wy <= endY && endY == startY + g.pool
      invariant Tracks(g, d, ScanRows(g, X, b, d, startY, startX, wy - startY), maxVal, maxIdx)
    {
      maxVal, maxIdx := MaxRow(g, X, b, d, y, x, wy, endX, ScanRows(g, X, b, d, startY, startX, wy - startY), maxVal, maxIdx);
      wy := wy + 1;
    }
  }

  /** The innermost AVERAGE loop: `sum += input(b, flat_idx)` along one window row. */
  method SumRowLoop(g: PoolGeometry, X: Mat, b: nat, d: nat, y: nat, x: nat, wy: nat, endX: int, sum0: real)
    returns (sum: real)
    requires g.Sound() && Wf(X) && b < X.rows && X.cols >= g.Reach()
    requires d < g.depth && y < g.OutHeight() && x < g.OutWidth()
    requires y * g.stride <= wy < y * g.stride + g.pool && endX == x * g.stride + g.pool
    ensures sum == sum0 + SumRow(g, X, b, d, wy, x * g.stride, g.pool)
  {
    var x0: nat := x * g.stride;
    sum := sum0;
    var wx: nat := x0;
    while wx < endX
      invariant x0 <= wx <= endX
      invariant sum == sum0 + SumRow(g, X, b, d, wy, x0, wx - x0)
    {
      ReadInReach(g, d, y, x, wy, wx);
      var flatIdx := d * g.height * g.width + wy * g.width + wx;
      sum := sum + Get(X, b, flatIdx);
      wx := wx + 1;
    }
  }

  /** The AVERAGE branch for one output pixel: the window sum from 0. */
  method SumWindow(g: PoolGeometry, X: Mat, b: nat, d: nat, y: nat, x: nat) returns (sum: real)
    requires g.Sound() && Wf(X) && b < X.rows && X.cols >= g.Reach()
    requires d < g.depth && y < g.OutHeight() && x < g.OutWidth()
    ensures sum == SumRows(g, X, b, d, y * g.stride, x * g.stride, g.pool)
  {
    var startY: nat, startX: nat := y * g.stride, x * g.stride;
    WindowInside(g, g.height, y);
    WindowInside(g, g.width, x);
    var endY, endX := Min(startY + g.pool, g.height), Min(startX + g.pool, g.width);
    sum := 0.0;
    var wy: nat := startY;
    while wy < endY
      invariant startY <= wy <= endY && endY == startY + g.pool
      invariant sum == SumRows(g, X, b, d, startY, startX, wy - startY)
    {
      sum := SumRowLoop(g, X, b, d, y, x, wy, endX, sum);
      wy := wy + 1;
    }
  }

  /** Output index o of a sample decodes to a channel and pixel in range, and encodes back to o. */
  lemma OutPosBound(g: PoolGeometry, o: int)
    requires g.Sound() && 0 <= o < g.OutSize()
    ensures OutPos(g, o).0 < g.depth && OutPos(g, o).1 < g.OutHeight() && OutPos(g, o).2 < g.OutWidth()
    ensures g.OutIndex(OutPos(g, o).0, OutPos(g, o).1, OutPos(g, o).2) == o
  {
    var oh, ow := g.OutHeight(), g.OutWidth();
    var (dy, x) := Convolutions.Split(o, ow);
    var (d, y) := Convolutions.Split(dy, oh);
    Convolutions.Assoc(g.depth, oh, ow);
    if dy >= g.depth * oh {
      MulMono(g.depth * oh, dy, ow);
    }
    if d >= g.depth {
      MulMono(g.depth, d, oh);
    }
    OutPosOf(g, d, y, x);
    Convolutions.Radix3(d, y, x, g.depth, oh, ow);
    Convolutions.Assoc(d, oh, ow);
  }

  /**
   * MAX pooling: the index cached for output pixel (y, x) of channel d is
   * an input cell inside the read range, it holds exactly the pooled value,
   * and no cell of the window exceeds it.
   */
  lemma WindowArgHoldsMax(g: PoolGeometry, X: Mat, b: int, d: nat, y: nat, x: nat)
    requires g.Sound() && Wf(X) && d < g.depth && y < g.OutHeight() && x < g.OutWidth()
    ensures 0 <= WindowArg(g, X, b, d, y, x) < g.Reach() <= g.ImageSize()
    ensures 0 <= b < X.rows && X.cols >= g.Reach() ==>
      Get(X, b, WindowArg(g, X, b, d, y, x)) == WindowMax(g, X, b, d, y, x)
    ensures forall wy, wx :: y * g.stride <= wy < y * g.stride + g.pool && x * g.stride <= wx < x * g.stride + g.pool ==>
      InCell(g, X, b, d, wy, wx) <= WindowMax(g, X, b, d, y, x)
  {
    var y0: nat, x0: nat := y * g.stride, x * g.stride;
    WindowMaxIsFirstMax(g, X, b, d, y0, x0);
    var best := ScanRows(g, X, b, d, y0, x0, g.pool).value;
    ReadInReach(g, d, y, x, best.wy, best.wx);
  }

  /** The cached index of an output cell is an input cell index. */
  lemma ArgCellBound(g: PoolGeometry, X: Mat, b: int, o: int)
    requires g.Sound() && Wf(X) && 0 <= o < g.OutSize()
    ensures 0 <= ArgCell(g, X, b, o) < g.ImageSize()
  {
    OutPosBound(g, o);
    var (d, y, x) := OutPos(g, o);
    WindowArgHoldsMax(g, X, b, d, y, x);
  }

  lemma {:induction false} SumRowAtMost(g: PoolGeometry, X: Mat, b: int, d: int, wy: int, x0: int, n: nat, m: real)
    requires Wf(X) && forall wx :: x0 <= wx < x0 + n ==> InCell(g, X, b, d, wy, wx) <= m
    ensures SumRow(g, X, b, d, wy, x0, n) <= (n as real) * m
  {
    if n > 0 {
      SumRowAtMost(g, X, b, d, wy, x0, n - 1, m);
      assert InCell(g, X, b, d, wy, x0 + n - 1) <= m;
    }
  }

  lemma {:induction false} SumRowsAtMost(g: PoolGeometry, X: Mat, b: int, d: int, y0: int, x0: int, k: nat, m: real)
    requires Wf(X)
    requires forall wy, wx :: y0 <= wy < y0 + k && x0 <= wx < x0 + g.pool ==> InCell(g, X, b, d, wy, wx) <= m
    ensures SumRows(g, X, b, d, y0, x0, k) <= (k as real) * ((g.pool as real) * m)
  {
    if k > 0 {
      SumRowsAtMost(g, X, b, d, y0, x0, k - 1, m);
      var wy := y0 + k - 1;
      forall wx | x0 <= wx < x0 + g.pool ensures InCell(g, X, b, d, wy, wx) <= m {
      }
      SumRowAtMost(g, X, b, d, wy, x0, g.pool, m);
      var pm := (g.pool as real) * m;
      assert SumRows(g, X, b, d, y0, x0, k) == SumRows(g, X, b, d, y0, x0, k - 1) + SumRow(g, X, b, d, wy, x0, g.pool);
      assert (k as real) * pm == ((k - 1) as real) * pm + pm;
    }
  }

  /** A sum of pool^2 terms, each at most m, scaled by 1 / pool^2 is at most m. */
  lemma MeanAtMost(g: PoolGeometry, sum: real, m: real)
    requires g.pool > 0 && sum <= (g.pool as real) * ((g.pool as real) * m)
    ensures Scaled(g, sum) <= m
  {
    var n := (g.pool * g.pool) as real;
    assert n == (g.pool as real) * (g.pool as real);
    assert sum * (1.0 / n) == sum / n;
  }

  /** A window's sum is at most pool^2 times its maximum. */
  lemma WindowSumAtMost(g: PoolGeometry, X: Mat, b: int, d: int, y0: int, x0: int)
    requires Wf(X) && g.pool > 0
    ensures ScanRows(g, X, b, d, y0, x0, g.pool).Some?
    ensures SumRows(g, X, b, d, y0, x0, g.pool) <=
            (g.pool as real) * ((g.pool as real) * ScanRows(g, X, b, d, y0, x0, g.pool).value.val)
  {
    WindowMaxIsFirstMax(g, X, b, d, y0, x0);
    SumRowsAtMost(g, X, b, d, y0, x0, g.pool, ScanRows(g, X, b, d, y0, x0, g.pool).value.val);
  }

  /** AVERAGE pooling never exceeds MAX pooling over the same window. */
  lemma AverageAtMostMax(g: PoolGeometry, X: Mat, b: int, d: int, y: int, x: int)
    requires Wf(X) && g.pool > 0
    ensures WindowAvg(g, X, b, d, y, x) <= WindowMax(g, X, b, d, y, x)
  {
    var y0, x0 := y * g.stride, x * g.stride;
    WindowSumAtMost(g, X, b, d, y0, x0);
    MeanAtMost(g, SumRows(g, X, b, d, y0, x0, g.pool), ScanRows(g, X, b, d, y0, x0, g.pool).value.val);
  }

  /** Sample b' cell o' is written before the loops reach sample b, cell o. */
  predicate Before(b': int, o': int, b: int, o: int)
  {
    b' < b || (b' == b && o' < o)
  }

  /** The output as far as the loops have written it: pooled cells before (b, o), zeros after. */
  ghost predicate OutUpTo(g: PoolGeometry, t: PoolingType, X: Mat, out: Mat, b: int, o: int)
    requires g.Sound() && Wf(X)
  {
    Wf(out) && out.rows == X.rows && out.cols == g.OutSize() &&
    forall b', o' :: 0 <= b' < X.rows && 0 <= o' < g.OutSize() ==>
      Get(out, b', o') == if Before(b', o', b, o) then PooledCell(g, t, X, b', o') else 0.0
  }

  /** The index cache as far as the loops have written it: argmaxes before (b, o), -1 after. */
  ghost predicate CacheUpTo(g: PoolGeometry, X: Mat, cache: seq<seq<int>>, b: int, o: int)
    requires g.Sound() && Wf(X)
  {
    |cache| == X.rows && (forall b' :: 0 <= b' < X.rows ==> |cache[b']| == g.OutSize()) &&
    forall b', o' :: 0 <= b' < X.rows && 0 <= o' < g.OutSize() ==>
      cache[b'][o'] == if Before(b', o', b, o) then ArgCell(g, X, b', o') else -1
  }

  /** Writing pooled cell (b, o) moves the written front one cell on. */
  lemma OutStep(g: PoolGeometry, t: PoolingType, X: Mat, out: Mat, b: nat, o: nat)
    requires g.Sound() && Wf(X) && b < X.rows && o < g.OutSize() && OutUpTo(g, t, X, out, b, o)
    ensures OutUpTo(g, t, X, Set(out, b, o, PooledCell(g, t, X, b, o)), b, o + 1)
  {
  }

  /** Caching argmax (b, o) moves the cached front one cell on. */
  lemma CacheStep(g: PoolGeometry, X: Mat, cache: seq<seq<int>>, b: nat, o: nat)
    requires g.Sound() && Wf(X) && b < X.rows && o < g.OutSize() && CacheUpTo(g, X, cache, b, o)
    ensures CacheUpTo(g, X, cache[b := cache[b][o := ArgCell(g, X, b, o)]], b, o + 1)
  {
  }

  /** Output index `out_idx` of pixel (y, x) of channel d holds that pixel's pooled window and argmax. */
  lemma PooledCellAt(g: PoolGeometry, t: PoolingType, X: Mat, b: int, d: nat, y: nat, x: nat)
    requires g.Sound() && Wf(X) && d < g.depth && y < g.OutHeight() && x < g.OutWidth()
    ensures PooledCell(g, t, X, b, g.OutIndex(d, y, x)) == PixelValue(g, t, X, b, d, y, x)
    ensures ArgCell(g, X, b, g.OutIndex(d, y, x)) == WindowArg(g, X, b, d, y, x)
  {
    OutPosOf(g, d, y, x);
  }

  /**
   * The body of the x loop of `forward`: the MAX or AVERAGE branch for
   * output pixel (y, x) of channel d of sample b, and the index the MAX
   * branch would cache.
   */
  method PoolPixel(g: PoolGeometry, t: PoolingType, X: Mat, b: nat, d: nat, y: nat, x: nat)
    returns (v: real, maxIdx: int)
    requires g.Sound() && Wf(X) && b < X.rows && X.cols >= g.Reach()
    requires d < g.depth && y < g.OutHeight() && x < g.OutWidth()
    ensures v == PixelValue(g, t, X, b, d, y, x)
    ensures t == MaxPooling ==> maxIdx == WindowArg(g, X, b, d, y, x)
  {
    if t == MaxPooling {
      v, maxIdx := MaxWindow(g, X, b, d, y, x);
      WindowMaxCell(g, X, b, d, y * g.stride, x * g.stride);
      assert v == WindowMax(g, X, b, d, y, x);
    } else {
      var sum := SumWindow(g, X, b, d, y, x);
      v, maxIdx := Scaled(g, sum), -1;
    }
  }

  /** The x loop of `forward` for row y of channel d of sample b. */
  method PoolLine(g: PoolGeometry, t: PoolingType, X: Mat, training: bool, b: nat, d: nat, y: nat,
                  out0: Mat, cache0: seq<seq<int>>) returns (out: Mat, cache: seq<seq<int>>)
    requires g.Sound() && Wf(X) && b < X.rows && X.cols >= g.Reach()
    requires d < g.depth && y < g.OutHeight()
    requires OutUpTo(g, t, X, out0, b, d * g.Pixels() + y * g.OutWidth())
    requires training && t == MaxPooling ==> CacheUpTo(g, X, cache0, b, d * g.Pixels() + y * g.OutWidth())
    ensures OutUpTo(g, t, X, out, b, d * g.Pixels() + y * g.OutWidth() + g.OutWidth())
    ensures training && t == MaxPooling ==> CacheUpTo(g, X, cache, b, d * g.Pixels() + y * g.OutWidth() + g.OutWidth())
    ensures !(training && t == MaxPooling) ==> cache == cache0
  {
    ghost var o0 := d * g.Pixels() + y * g.OutWidth();
    out, cache := out0, cache0;
    var x := 0;
    while x < g.OutWidth()
      invariant 0 <= x <= g.OutWidth()
      invariant OutUpTo(g, t, X, out, b, o0 + x)
      invariant training && t == MaxPooling ==> CacheUpTo(g, X, cache, b, o0 + x)
      invariant !(training && t == MaxPooling) ==> cache == cache0
    {
      OutPosOf(g, d, y, x);
      var outIdx := d * g.OutHeight() * g.OutWidth() + y * g.OutWidth() + x;
      var v, maxIdx := PoolPixel(g, t, X, b, d, y, x);
      PooledCellAt(g, t, X, b, d, y, x);
      OutStep(g, t, X, out, b, outIdx);
      out := Set(out, b, outIdx, v);
      if t == MaxPooling && training {
        CacheStep(g, X, cache, b, outIdx);
        cache := cache[b := cache[b][outIdx := maxIdx]];
      }
      x := x + 1;
    }
  }

  /** The y loop of `forward` for channel d of sample b. */
  method PoolChannel(g: PoolGeometry, t: PoolingType, X: Mat, training: bool, b: nat, d: nat,
                     out0: Mat, cache0: seq<seq<int>>) returns (out: Mat, cache: seq<seq<int>>)
    requires g.Sound() && Wf(X) && b < X.rows && X.cols >= g.Reach() && d < g.depth
    requires OutUpTo(g, t, X, out0, b, d * g.Pixels())
    requires training && t == MaxPooling ==> CacheUpTo(g, X, cache0, b, d * g.Pixels())
    ensures OutUpTo(g, t, X, out, b, (d + 1) * g.Pixels())
    ensures training && t == MaxPooling ==> CacheUpTo(g, X, cache, b, (d + 1) * g.Pixels())
    ensures !(training && t == MaxPooling) ==> cache == cache0
  {
    out, cache := out0, cache0;
    var y := 0;
    while y < g.OutHeight()
      invariant 0 <= y <= g.OutHeight()
      invariant OutUpTo(g, t, X, out, b, d * g.Pixels() + y * g.OutWidth())
      invariant training && t == MaxPooling ==> CacheUpTo(g, X, cache, b, d * g.Pixels() + y * g.OutWidth())
      invariant !(training && t == MaxPooling) ==> cache == cache0
    {
      out, cache := PoolLine(g, t, X, training, b, d, y, out, cache);
      Convolutions.NextMultiple(d * g.Pixels(), y, g.OutWidth());
      y := y + 1;
    }
    Convolutions.NextMultiple(0, d, g.Pixels());
  }

  /** The d loop of `forward` for sample b. */
  method PoolSample(g: PoolGeometry, t: PoolingType, X: Mat, training: bool, b: nat,
                    out0: Mat, cache0: seq<seq<int>>) returns (out: Mat, cache: seq<seq<int>>)
    requires g.Sound() && Wf(X) && b < X.rows && X.cols >= g.Reach()
    requires OutUpTo(g, t, X, out0, b, 0)
    requires training && t == MaxPooling ==> CacheUpTo(g, X, cache0, b, 0)
    ensures OutUpTo(g, t, X, out, b + 1, 0)
    ensures training && t == MaxPooling ==> CacheUpTo(g, X, cache, b + 1, 0)
    ensures !(training && t == MaxPooling) ==> cache == cache0
  {
    out, cache := out0, cache0;
    var d := 0;
    while d < g.depth
      invariant 0 <= d <= g.depth
      invariant OutUpTo(g, t, X, out, b, d * g.Pixels())
      invariant training && t == MaxPooling ==> CacheUpTo(g, X, cache, b, d * g.Pixels())
      invariant !(training && t == MaxPooling) ==> cache == cache0
    {
      out, cache := PoolChannel(g, t, X, training, b, d, out, cache);
      d := d + 1;
    }
  }

  /**
   * The loops of `forward` over a batch, from a zero output and (when
   * recording) a cache of -1s: every output cell is its pooled window, and
   * a training MAX pass caches every window's argmax.
   */
  method PoolPass(g: PoolGeometry, t: PoolingType, X: Mat, training: bool, cache0: seq<seq<int>>)
    returns (out: Mat, cache: seq<seq<int>>)
    requires g.Sound() && Wf(X) && (X.rows == 0 || X.cols >= g.Reach())
    requires training && t == MaxPooling ==> cache0 == Unset(X.rows, g.OutSize())
    ensures out == Pooled(g, t, X)
    ensures cache == if training && t == MaxPooling then ArgCache(g, X) else cache0
  {
    out, cache := Zeros(X.rows, g.OutSize()), cache0;
    var b := 0;
    while b < X.rows
      invariant 0 <= b <= X.rows
      invariant OutUpTo(g, t, X, out, b, 0)
      invariant training && t == MaxPooling ==> CacheUpTo(g, X, cache, b, 0)
      invariant !(training && t == MaxPooling) ==> cache == cache0
    {
      out, cache := PoolSample(g, t, X, training, b, out, cache);
      b := b + 1;
    }
    Ext(out, Pooled(g, t, X));
    if training && t == MaxPooling {
      forall b' | 0 <= b' < X.rows ensures cache[b'] == ArgCache(g, X)[b'] {
      }
    }
  }

  /**
   * What `forward` returns: the pooled batch, or the out-of-bounds error of
   * the first input read past the columns, which happens exactly when some
   * sample is read at all and the last window cell lies beyond the input.
   */
  function PoolOutput(g: PoolGeometry, t: PoolingType, X: Mat): (r: Result<Mat>)
    requires g.Sound() && Wf(X)
    ensures r.Err? <==> X.rows > 0 && X.cols < g.Reach()
  {
    if X.rows > 0 && X.cols < g.Reach() then Err("Matrix indices out of bounds") else Ok(Pooled(g, t, X))
  }

  // ------------------------------------------------------------ backward

  /** Cell (b, o) of the output gradient; 0 off the matrix. */
  function GradAt(gr: Mat, b: int, o: int): real
    requires Wf(gr)
  {
    if 0 <= b < gr.rows && 0 <= o < gr.cols then Get(gr, b, o) else 0.0
  }

  /** `max_indices_cache[b][o]`; -1 off the cache. */
  function CacheAt(cache: seq<seq<int>>, b: int, o: int): int
  {
    if 0 <= b < |cache| && 0 <= o < |cache[b]| then cache[b][o] else -1
  }

  /** Output cell o's window covers input cell i: same channel, and i's row and column fall in the window. */
  predicate Covers(g: PoolGeometry, o: int, i: int)
    requires g.Sound()
  {
    var (d, y, x) := OutPos(g, o);
    var (di, iy, ix) := InPos(g, i);
    d == di && y * g.stride <= iy < y * g.stride + g.pool && x * g.stride <= ix < x * g.stride + g.pool
  }

  /**
   * What output cell o of sample b adds to input cell i: under MAX its
   * gradient if it cached i, under AVERAGE grad / pool^2 if its window
   * covers i.
   */
  function Contribution(g: PoolGeometry, t: PoolingType, gr: Mat, cache: seq<seq<int>>, b: int, o: int, i: int): real
    requires g.Sound() && Wf(gr)
  {
    match t
    case MaxPooling => if CacheAt(cache, b, o) == i then GradAt(gr, b, o) else 0.0
    case AveragePooling => if Covers(g, o, i) then Scaled(g, GradAt(gr, b, o)) else 0.0
  }

  /** What input cell i of sample b has collected from output cells 0 .. n - 1. */
  function Collected(g: PoolGeometry, t: PoolingType, gr: Mat, cache: seq<seq<int>>, b: int, i: int, n: nat): real
    requires g.Sound() && Wf(gr)
  {
    if n == 0 then 0.0 else Collected(g, t, gr, cache, b, i, n - 1) + Contribution(g, t, gr, cache, b, n - 1, i)
  }

  /** What `backward` returns: every input cell's gradient collected from all output cells of its sample. */
  function InputGradient(g: PoolGeometry, t: PoolingType, gr: Mat, cache: seq<seq<int>>): (m: Mat)
    requires g.Sound() && Wf(gr)
    ensures Wf(m) && m.rows == gr.rows && m.cols == g.ImageSize()
  {
    Tabulate(gr.rows, g.ImageSize(), (b, i) => Collected(g, t, gr, cache, b, i, g.OutSize()))
  }

  /** A cache `backward` can index: a row of OutSize entries per gradient row, each -1 or an input cell. */
  ghost predicate CacheFits(g: PoolGeometry, cache: seq<seq<int>>, rows: nat)
    requires g.Sound()
  {
    |cache| >= rows &&
    forall b :: 0 <= b < rows ==>
      (|cache[b]| >= g.OutSize() && forall o :: 0 <= o < g.OutSize() ==> -1 <= cache[b][o] < g.ImageSize())
  }

  /** dX as far as the loops have accumulated it: whole samples before b, output cells before o of sample b. */
  ghost predicate BackUpTo(g: PoolGeometry, t: PoolingType, gr: Mat, cache: seq<seq<int>>, dX: Mat, b: int, o: nat)
    requires g.Sound() && Wf(gr)
  {
    Wf(dX) && dX.rows == gr.rows && dX.cols == g.ImageSize() &&
    forall b', i :: 0 <= b' < gr.rows && 0 <= i < g.ImageSize() ==>
      Get(dX, b', i) == Collected(g, t, gr, cache, b', i, if b' < b then g.OutSize() else if b' == b then o else 0)
  }

  /** Input cell i lies in rows y0 .. y1 - 1 and columns x0 .. x0 + pool - 1 of channel d. */
  predicate InBlock(g: PoolGeometry, i: int, d: int, y0: int, y1: int, x0: int)
    requires g.Sound()
  {
    InPos(g, i).0 == d && y0 <= InPos(g, i).1 < y1 && x0 <= InPos(g, i).2 < x0 + g.pool
  }

  /** Row wy of channel d is contiguous: its columns x0 .. x0 + pool - 1 are the flat indices from Flat(d, wy, x0) on. */
  lemma RowCells(g: PoolGeometry, d: nat, wy: nat, x0: nat, i: int)
    requires g.Sound() && wy < g.height && x0 + g.pool <= g.width && 0 <= i
    ensures (g.Flat(d, wy, x0) <= i < g.Flat(d, wy, x0) + g.pool) <==>
            (InPos(g, i).0 == d && InPos(g, i).1 == wy && x0 <= InPos(g, i).2 < x0 + g.pool)
  {
    var base := g.Flat(d, wy, 0);
    if base + x0 <= i < base + x0 + g.pool {
      InPosOf(g, d, wy, i - base, i);
    }
    var (di, iy, ix) := InPos(g, i);
    InPosOf(g, d, wy, ix, i);
  }

  /** The innermost AVERAGE loop of `backward`: v added to each cell of window row wy. */
  method SpreadRow(g: PoolGeometry, dX0: Mat, b: nat, d: nat, y: nat, x: nat, wy: nat, endX: int, v: real)
    returns (dX: Mat)
    requires g.Sound() && Wf(dX0) && b < dX0.rows && dX0.cols == g.ImageSize()
    requires d < g.depth && y < g.OutHeight() && x < g.OutWidth()
    requires y * g.stride <= wy < y * g.stride + g.pool && endX == x * g.stride + g.pool
    ensures Wf(dX) && dX.rows == dX0.rows && dX.cols == dX0.cols
    ensures forall b', i :: 0 <= b' < dX0.rows && 0 <= i < dX0.cols ==>
      Get(dX, b', i) == Get(dX0, b', i) +
        if b' == b && g.Flat(d, wy, x * g.stride) <= i < g.Flat(d, wy, x * g.stride) + g.pool then v else 0.0
  {
    var x0: nat := x * g.stride;
    ghost var base := g.Flat(d, wy, 0);
    dX := dX0;
    var wx: nat := x0;
    while wx < endX
      invariant x0 <= wx <= endX
      invariant Wf(dX) && dX.rows == dX0.rows && dX.cols == dX0.cols
      invariant forall b', i :: 0 <= b' < dX0.rows && 0 <= i < dX0.cols ==>
        Get(dX, b', i) == Get(dX0, b', i) + if b' == b && base + x0 <= i < base + wx then v else 0.0
    {
      ReadInReach(g, d, y, x, wy, wx);
      var flatIdx := d * g.height * g.width + wy * g.width + wx;
      dX := Set(dX, b, flatIdx, Get(dX, b, flatIdx) + v);
      wx := wx + 1;
    }
  }

  /** The AVERAGE branch of `backward` for output pixel (y, x) of channel d: v added to each cell of its window. */
  method SpreadWindow(g: PoolGeometry, dX0: Mat, b: nat, d: nat, y: nat, x: nat, v: real) returns (dX: Mat)
    requires g.Sound() && Wf(dX0) && b < dX0.rows && dX0.cols == g.ImageSize()
    requires d < g.depth && y < g.OutHeight() && x < g.OutWidth()
    ensures Wf(dX) && dX.rows == dX0.rows && dX.cols == dX0.cols
    ensures forall b', i :: 0 <= b' < dX0.rows && 0 <= i < dX0.cols ==>
      Get(dX, b', i) == Get(dX0, b', i) + if b' == b && Covers(g, g.OutIndex(d, y, x), i) then v else 0.0
  {
    var startY: nat, startX: nat := y * g.stride, x * g.stride;
    WindowInside(g, g.height, y);
    WindowInside(g, g.width, x);
    var endY, endX := Min(startY + g.pool, g.height), Min(startX + g.pool, g.width);
    dX := dX0;
    var wy: nat := startY;
    forall i | 0 <= i < dX0.cols ensures !InBlock(g, i, d, startY, startY, startX) {
    }
    while wy < endY
      invariant startY <= wy <= endY && endY == startY + g.pool
      invariant Wf(dX) && dX.rows == dX0.rows && dX.cols == dX0.cols
      invariant forall b', i :: 0 <= b' < dX0.rows && 0 <= i < dX0.cols ==>
        Get(dX, b', i) == Get(dX0, b', i) + if b' == b && InBlock(g, i, d, startY, wy, startX) then v else 0.0
    {
      var dX1 := SpreadRow(g, dX, b, d, y, x, wy, endX, v);
      forall b', i | 0 <= b' < dX0.rows && 0 <= i < dX0.cols
        ensures Get(dX1, b', i) == Get(dX0, b', i) + if b' == b && InBlock(g, i, d, startY, wy + 1, startX) then v else 0.0
      {
        RowCells(g, d, wy, startX, i);
      }
      dX := dX1;
      wy := wy + 1;
    }
    OutPosOf(g, d, y, x);
  }

  /** Collecting output cell o of sample b moves the accumulated front one cell on. */
  lemma BackStep(g: PoolGeometry, t: PoolingType, gr: Mat, cache: seq<seq<int>>, dX: Mat, dX1: Mat, b: nat, o: nat)
    requires g.Sound() && Wf(gr) && b < gr.rows && o < g.OutSize() && BackUpTo(g, t, gr, cache, dX, b, o)
    requires Wf(dX1) && dX1.rows == dX.rows && dX1.cols == dX.cols
    requires forall b', i :: 0 <= b' < gr.rows && 0 <= i < g.ImageSize() ==>
      Get(dX1, b', i) == Get(dX, b', i) + if b' == b then Contribution(g, t, gr, cache, b, o, i) else 0.0
    ensures BackUpTo(g, t, gr, cache, dX1, b, o + 1)
  {
  }

  /** The MAX branch of `backward` for output cell o: its gradient added at the cached index, unless that is -1. */
  method RoutePixel(g: PoolGeometry, gr: Mat, cache: seq<seq<int>>, b: nat, o: nat, dX0: Mat) returns (dX: Mat)
    requires g.Sound() && Wf(gr) && b < gr.rows && o < g.OutSize() <= gr.cols && CacheFits(g, cache, gr.rows)
    requires Wf(dX0) && dX0.rows == gr.rows && dX0.cols == g.ImageSize()
    ensures Wf(dX) && dX.rows == dX0.rows && dX.cols == dX0.cols
    ensures forall b', i :: 0 <= b' < gr.rows && 0 <= i < g.ImageSize() ==>
      Get(dX, b', i) == Get(dX0, b', i) + if b' == b then Contribution(g, MaxPooling, gr, cache, b, o, i) else 0.0
  {
    var grad := Get(gr, b, o);
    var maxIdx := cache[b][o];
    if maxIdx != -1 {
      dX := Set(dX0, b, maxIdx, Get(dX0, b, maxIdx) + grad);
    } else {
      dX := dX0;
    }
  }

  /** The AVERAGE branch of `backward` for output pixel (y, x) of channel d: `grad * avg_grad_scale` over its window. */
  method SpreadPixel(g: PoolGeometry, gr: Mat, cache: seq<seq<int>>, b: nat, d: nat, y: nat, x: nat, o: nat, dX0: Mat)
    returns (dX: Mat)
    requires g.Sound() && Wf(gr) && b < gr.rows && gr.cols >= g.OutSize()
    requires d < g.depth && y < g.OutHeight() && x < g.OutWidth() && o == g.OutIndex(d, y, x) < g.OutSize()
    requires Wf(dX0) && dX0.rows == gr.rows && dX0.cols == g.ImageSize()
    ensures Wf(dX) && dX.rows == dX0.rows && dX.cols == dX0.cols
    ensures forall b', i :: 0 <= b' < gr.rows && 0 <= i < g.ImageSize() ==>
      Get(dX, b', i) == Get(dX0, b', i) + if b' == b then Contribution(g, AveragePooling, gr, cache, b, o, i) else 0.0
  {
    var grad := Get(gr, b, o);
    var distributed := Scaled(g, grad);
    dX := SpreadWindow(g, dX0, b, d, y, x, distributed);
    assert GradAt(gr, b, o) == grad;
    forall b', i | 0 <= b' < gr.rows && 0 <= i < g.ImageSize()
      ensures Get(dX, b', i) == Get(dX0, b', i) + if b' == b then Contribution(g, AveragePooling, gr, cache, b, o, i) else 0.0
    {
      assert Contribution(g, AveragePooling, gr, cache, b, o, i) == if Covers(g, o, i) then distributed else 0.0;
    }
  }

  /**
   * The body of the x loop of `backward`: MAX adds the gradient to the
   * cached argmax unless it is -1; AVERAGE spreads grad / pool^2 over the window.
   */
  method BackPixel(g: PoolGeometry, t: PoolingType, gr: Mat, cache: seq<seq<int>>, b: nat, d: nat, y: nat, x: nat,
                   ghost o: nat, dX0: Mat) returns (dX: Mat)
    requires g.Sound() && Wf(gr) && b < gr.rows && gr.cols >= g.OutSize()
    requires t == MaxPooling ==> CacheFits(g, cache, gr.rows)
    requires d < g.depth && y < g.OutHeight() && x < g.OutWidth() && o == g.OutIndex(d, y, x)
    requires BackUpTo(g, t, gr, cache, dX0, b, o)
    ensures BackUpTo(g, t, gr, cache, dX, b, o + 1)
  {
    OutPosOf(g, d, y, x);
    var outIdx := d * g.OutHeight() * g.OutWidth() + y * g.OutWidth() + x;
    if t == MaxPooling {
      dX := RoutePixel(g, gr, cache, b, outIdx, dX0);
    } else {
      dX := SpreadPixel(g, gr, cache, b, d, y, x, outIdx, dX0);
    }
    BackStep(g, t, gr, cache, dX0, dX, b, outIdx);
  }

  /** The x loop of `backward` for row y of channel d of sample b. */
  method BackLine(g: PoolGeometry, t: PoolingType, gr: Mat, cache: seq<seq<int>>, b: nat, d: nat, y: nat, dX0: Mat)
    returns (dX: Mat)
    requires g.Sound() && Wf(gr) && b < gr.rows && gr.cols >= g.OutSize()
    requires t == MaxPooling ==> CacheFits(g, cache, gr.rows)
    requires d < g.depth && y < g.OutHeight()
    requires BackUpTo(g, t, gr, cache, dX0, b, d * g.Pixels() + y * g.OutWidth())
    ensures BackUpTo(g, t, gr, cache, dX, b, d * g.Pixels() + y * g.OutWidth() + g.OutWidth())
  {
    OutPosOf(g, d, y, 0);
    ghost var o0: nat := d * g.Pixels() + y * g.OutWidth();
    dX := dX0;
    var x := 0;
    while x < g.OutWidth()
      invariant 0 <= x <= g.OutWidth()
      invariant BackUpTo(g, t, gr, cache, dX, b, o0 + x)
    {
      OutPosOf(g, d, y, x);
      dX := BackPixel(g, t, gr, cache, b, d, y, x, o0 + x, dX);
      x := x + 1;
    }
  }

  /** The y loop of `backward` for channel d of sample b. */
  method BackChannel(g: PoolGeometry, t: PoolingType, gr: Mat, cache: seq<seq<int>>, b: nat, d: nat, dX0: Mat)
    returns (dX: Mat)
    requires g.Sound() && Wf(gr) && b < gr.rows && gr.cols >= g.OutSize()
    requires t == MaxPooling ==> CacheFits(g, cache, gr.rows)
    requires d < g.depth && BackUpTo(g, t, gr, cache, dX0, b, d * g.Pixels())
    ensures BackUpTo(g, t, gr, cache, dX, b, (d + 1) * g.Pixels())
  {
    dX := dX0;
    var y := 0;
    while y < g.OutHeight()
      invariant 0 <= y <= g.OutHeight()
      invariant BackUpTo(g, t, gr, cache, dX, b, d * g.Pixels() + y * g.OutWidth())
    {
      dX := BackLine(g, t, gr, cache, b, d, y, dX);
      Convolutions.NextMultiple(d * g.Pixels(), y, g.OutWidth());
      y := y + 1;
    }
    Convolutions.NextMultiple(0, d, g.Pixels());
  }

  /** The d loop of `backward` for sample b. */
  method BackSample(g: PoolGeometry, t: PoolingType, gr: Mat, cache: seq<seq<int>>, b: nat, dX0: Mat)
    returns (dX: Mat)
    requires g.Sound() && Wf(gr) && b < gr.rows && gr.cols >= g.OutSize()
    requires t == MaxPooling ==> CacheFits(g, cache, gr.rows)
    requires BackUpTo(g, t, gr, cache, dX0, b, 0)
    ensures BackUpTo(g, t, gr, cache, dX, b + 1, 0)
  {
    dX := dX0;
    var d := 0;
    while d < g.depth
      invariant 0 <= d <= g.depth
      invariant BackUpTo(g, t, gr, cache, dX, b, d * g.Pixels())
    {
      dX := BackChannel(g, t, gr, cache, b, d, dX);
      d := d + 1;
    }
  }

  /** The loops of `backward` over a batch, from `Matrix::zeros(batch, input_cols)`. */
  method BackPass(g: PoolGeometry, t: PoolingType, gr: Mat, cache: seq<seq<int>>) returns (dX: Mat)
    requires g.Sound() && Wf(gr) && (gr.rows == 0 || gr.cols >= g.OutSize())
    requires t == MaxPooling ==> CacheFits(g, cache, gr.rows)
    ensures dX == InputGradient(g, t, gr, cache)
  {
    dX := Zeros(gr.rows, g.ImageSize());
    var b := 0;
    while b < gr.rows
      invariant 0 <= b <= gr.rows
      invariant BackUpTo(g, t, gr, cache, dX, b, 0)
    {
      dX := BackSample(g, t, gr, cache, b, dX);
      b := b + 1;
    }
    Ext(dX, InputGradient(g, t, gr, cache));
  }

  /** What `backward` returns: the collected gradients, or the out-of-bounds error of the first gradient read past the columns. */
  function BackOutput(g: PoolGeometry, t: PoolingType, gr: Mat, cache: seq<seq<int>>): (r: Result<Mat>)
    requires g.Sound() && Wf(gr)
    ensures r.Err? <==> gr.rows > 0 && gr.cols < g.OutSize()
  {
    if gr.rows > 0 && gr.cols < g.OutSize() then Err("Matrix indices out of bounds")
    else Ok(InputGradient(g, t, gr, cache))
  }

  /** The gradient row of input cells of sample b after output cells 0 .. n - 1. */
  function CollectedRow(g: PoolGeometry, t: PoolingType, gr: Mat, cache: seq<seq<int>>, b: int, n: nat): (row: seq<real>)
    requires g.Sound() && Wf(gr)
    ensures |row| == g.ImageSize()
  {
    seq(g.ImageSize(), i => Collected(g, t, gr, cache, b, i, n))
  }

  /** The sum of output gradients 0 .. n - 1 of sample b. */
  function GradTotal(gr: Mat, b: int, n: nat): real
    requires Wf(gr)
  {
    if n == 0 then 0.0 else GradTotal(gr, b, n - 1) + GradAt(gr, b, n - 1)
  }

  /**
   * MAX routing conserves gradient: when every output cell cached an input
   * cell, sample b's input gradients add up to its output gradients.
   */
  lemma {:induction false} RoutedConserved(g: PoolGeometry, gr: Mat, cache: seq<seq<int>>, b: int, n: nat)
    requires g.Sound() && Wf(gr)
    requires forall o :: 0 <= o < n ==> 0 <= CacheAt(cache, b, o) < g.ImageSize()
    ensures Sum(CollectedRow(g, MaxPooling, gr, cache, b, n), g.ImageSize()) == GradTotal(gr, b, n)
  {
    if n == 0 {
      SumZeros(CollectedRow(g, MaxPooling, gr, cache, b, 0), g.ImageSize());
    } else {
      RoutedConserved(g, gr, cache, b, n - 1);
      var k := CacheAt(cache, b, n - 1);
      var before, after := CollectedRow(g, MaxPooling, gr, cache, b, n - 1), CollectedRow(g, MaxPooling, gr, cache, b, n);
      SumUpdate(before, after, k, GradAt(gr, b, n - 1), g.ImageSize());
    }
  }

  /**
   * After a training MAX `forward` over X, `backward` hands each sample
   * exactly its output gradient total back across its input cells.
   */
  lemma MaxBackwardConserves(g: PoolGeometry, X: Mat, gr: Mat, b: int)
    requires g.Sound() && Wf(X) && Wf(gr) && 0 <= b < X.rows
    ensures Sum(CollectedRow(g, MaxPooling, gr, ArgCache(g, X), b, g.OutSize()), g.ImageSize()) ==
            GradTotal(gr, b, g.OutSize())
  {
    forall o | 0 <= o < g.OutSize() ensures 0 <= CacheAt(ArgCache(g, X), b, o) < g.ImageSize() {
      ArgCellBound(g, X, b, o);
    }
    RoutedConserved(g, gr, ArgCache(g, X), b, g.OutSize());
  }

  // --------------------------------------------------------------- layer

  class Pooling2DLayer {
    /** depth, input_height, input_width, pool_size and stride. */
    const geometry: PoolGeometry
    const kind: PoolingType

    /** `max_indices_cache`: per sample, the flat input index each output cell took its maximum from. */
    var maxIndices: seq<seq<int>>

    /** The geometry is sound and every cached index is -1 or an input cell. */
    ghost predicate Valid()
      reads this
    {
      geometry.Sound() &&
      forall b :: 0 <= b < |maxIndices| ==>
        forall o :: 0 <= o < |maxIndices[b]| ==> -1 <= maxIndices[b][o] < geometry.ImageSize()
    }

    /** `getParameters()` and `getParameterGradients()`: a pooling layer has none. */
    function Parameters(): (ps: seq<Mat>)
      ensures ps == []
    {
      []
    }

    function Gradients(): (gs: seq<Mat>)
      ensures gs == []
    {
      []
    }

    /** `getOutputShape()`: (depth, output_height, output_width), whose flat size is the output row width. */
    function OutputShape(): (d: Layers.Dims)
      requires geometry.Sound()
      reads this
      ensures d.depth == geometry.depth && d.Flat() == geometry.OutSize()
    {
      Convolutions.Assoc(geometry.depth, geometry.OutHeight(), geometry.OutWidth());
      Layers.Dims(geometry.depth, geometry.OutHeight(), geometry.OutWidth())
    }

    /** `Pooling2DLayer(d, h, w, type, pool_size, stride)`: an empty index cache. */
    constructor(g: PoolGeometry, t: PoolingType)
      requires g.Sound()
      ensures Valid() && geometry == g && kind == t && maxIndices == []
    {
      geometry, kind, maxIndices := g, t, [];
    }

    /**
     * `forward(input, is_training)`: a training MAX pass first resets the
     * cache to -1 everywhere, then every output cell is pooled from its
     * window; a training MAX pass that completes leaves every window's
     * argmax in the cache.
     */
    method Forward(x: Mat, training: bool) returns (r: Result<Mat>)
      requires Valid() && Wf(x)
      modifies this
      ensures Valid()
      ensures r == PoolOutput(geometry, kind, x)
      ensures maxIndices ==
        if !(training && kind == MaxPooling) then old(maxIndices)
        else if r.Ok? then ArgCache(geometry, x)
        else Unset(x.rows, geometry.OutSize())
    {
      if training && kind == MaxPooling {
        maxIndices := Unset(x.rows, geometry.OutSize());
      }
      if x.rows > 0 && x.cols < geometry.Reach() {
        return Err("Matrix indices out of bounds");
      }
      var out, cache := PoolPass(geometry, kind, x, training, maxIndices);
      forall b, o | 0 <= b < |cache| && 0 <= o < |cache[b]| ensures -1 <= cache[b][o] < geometry.ImageSize() {
        if training && kind == MaxPooling {
          ArgCellBound(geometry, x, b, o);
        }
      }
      maxIndices := cache;
      r := Ok(out);
    }

    /**
     * `backward(outputGradients)`: each output gradient goes to the cached
     * argmax (MAX) or, times 1 / pool^2, to every cell of its window
     * (AVERAGE); the layer's state is not touched. Under MAX the cache must
     * hold a row of output-width entries for every gradient row.
     */
    method Backward(gr: Mat) returns (r: Result<Mat>)
      requires Valid() && Wf(gr)
      requires kind == MaxPooling ==>
        |maxIndices| >= gr.rows && forall b :: 0 <= b < gr.rows ==> |maxIndices[b]| >= geometry.OutSize()
      ensures r == BackOutput(geometry, kind, gr, maxIndices)
    {
      if gr.rows > 0 && gr.cols < geometry.OutSize() {
        return Err("Matrix indices out of bounds");
      }
      var dX := BackPass(geometry, kind, gr, maxIndices);
      r := Ok(dX);
    }
  }
}
