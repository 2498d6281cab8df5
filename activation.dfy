// Activation functions of src/core/Activation.cpp: the forward pass `apply`,
// the vector-Jacobian product `backprop` and the element-wise `derivative`.
// exp and tanh are left uninterpreted (Common.Exp, Common.Tanh).
module Activations {
  import opened Common
  import opened MatrixSpec

  datatype Kind = Linear | Relu | Sigmoid | Tanh | Softmax | LogSoftmax

  /** The clipping bound of softmax outputs (EPSILON = 1e-7f). */
  const Epsilon: real := 0.0000001

  /** The kinds whose forward pass acts on each cell alone. */
  predicate Elementwise(k: Kind)
  {
    k.Linear? || k.Relu? || k.Sigmoid? || k.Tanh?
  }

  /** The forward pass of one cell for an element-wise kind. */
  function Forward(k: Kind, x: real): real
    requires Elementwise(k)
  {
    match k
    case Linear => x
    case Relu => if x > 0.0 then x else 0.0
    case Sigmoid => 1.0 / (1.0 + Exp(-x))
    case Tanh => Common.Tanh(x)
  }

  /** `backprop` on one cell for an element-wise kind, from the cached activation a and upstream gradient g. */
  function LocalGrad(k: Kind, a: real, g: real): real
    requires Elementwise(k)
  {
    match k
    case Linear => g
    case Relu => if a > 0.0 then g else 0.0
    case Sigmoid => a * (1.0 - a) * g
    case Tanh => (1.0 - a * a) * g
  }

  /** `derivative` on one cell, from the pre-activation x. */
  function DerivativeAt(k: Kind, x: real): real
    requires Elementwise(k)
  {
    match k
    case Linear => 1.0
    case Relu => if x > 0.0 then 1.0 else 0.0
    case Sigmoid => var s := Forward(Sigmoid, x); s * (1.0 - s)
    case Tanh => var t := Common.Tanh(x); 1.0 - t * t
  }

  /** `getName`. */
  function Name(k: Kind): (s: string)
    ensures s == "Unknown" <==> k == LogSoftmax
  {
    match k
    case Linear => "Linear"
    case Relu => "ReLU"
    case Sigmoid => "Sigmoid"
    case Tanh => "Tanh"
    case Softmax => "Softmax"
    case LogSoftmax => "Unknown"
  }

  // ----------------------------------------------------------------- softmax

  /** The largest of the first n cells of row i (the running max of the stabilising shift). */
  function RowMax(z: Mat, i: int, n: int): real
    requires Wf(z) && 0 <= i < z.rows && 1 <= n <= z.cols
  {
    if n == 1 then Get(z, i, 0)
    else if Get(z, i, n - 1) > RowMax(z, i, n - 1) then Get(z, i, n - 1) else RowMax(z, i, n - 1)
  }

  /** Sum of exp(z(i, c) - shift) over c < n. */
  function ExpSum(z: Mat, i: int, shift: real, n: int): (s: real)
    requires Wf(z) && 0 <= i < z.rows && 0 <= n <= z.cols
    ensures n >= 1 ==> s > 0.0
  {
    if n == 0 then 0.0 else ExpSum(z, i, shift, n - 1) + Exp(Get(z, i, n - 1) - shift)
  }

  /** The probability clipped into [EPSILON, 1 - EPSILON], low bound first. */
  function Clip(p: real): real
  {
    var q := if p < Epsilon then Epsilon else p;
    if q > 1.0 - Epsilon then 1.0 - Epsilon else q
  }

  /** The shift of row i: its largest entry. */
  function Shift(z: Mat, i: int): real
    requires Wf(z) && 0 <= i < z.rows && z.cols >= 1
  {
    RowMax(z, i, z.cols)
  }

  /** The normaliser of row i: the sum of its shifted exponentials. */
  function Normalizer(z: Mat, i: int): (s: real)
    requires Wf(z) && 0 <= i < z.rows && z.cols >= 1
    ensures s > 0.0
  {
    ExpSum(z, i, Shift(z, i), z.cols)
  }

  /** Unclipped softmax of cell (i, j): exp(z - max) times the reciprocal of the row's sum. */
  function SoftmaxRaw(z: Mat, i: int, j: int): real
    requires Wf(z) && 0 <= i < z.rows && 0 <= j < z.cols
  {
    Exp(Get(z, i, j) - Shift(z, i)) * (1.0 / Normalizer(z, i))
  }

  function SoftmaxCell(z: Mat, i: int, j: int): real
    requires Wf(z) && 0 <= i < z.rows && 0 <= j < z.cols
  {
    Clip(SoftmaxRaw(z, i, j))
  }

  /** The max-shift is attained in the row and bounds every cell of it. */
  lemma {:induction false} RowMaxIsMax(z: Mat, i: int, n: int)
    requires Wf(z) && 0 <= i < z.rows && 1 <= n <= z.cols
    ensures forall c :: 0 <= c < n ==> Get(z, i, c) <= RowMax(z, i, n)
    ensures exists c :: 0 <= c < n && Get(z, i, c) == RowMax(z, i, n)
  {
    if n == 1 {
      assert Get(z, i, 0) == RowMax(z, i, n);
    } else {
      RowMaxIsMax(z, i, n - 1);
      if Get(z, i, n - 1) <= RowMax(z, i, n - 1) {
        var c :| 0 <= c < n - 1 && Get(z, i, c) == RowMax(z, i, n - 1);
        assert Get(z, i, c) == RowMax(z, i, n);
      } else {
        assert Get(z, i, n - 1) == RowMax(z, i, n);
      }
    }
  }

  /** Every clipped probability lies in [EPSILON, 1 - EPSILON]. */
  lemma ClipBounds(p: real)
    ensures Epsilon <= Clip(p) <= 1.0 - Epsilon
    ensures Epsilon <= p <= 1.0 - Epsilon ==> Clip(p) == p
  {}

  /** Sum over c < n of the unclipped softmax numerators scaled by inv. */
  function ScaledExpSum(z: Mat, i: int, shift: real, inv: real, n: int): real
    requires Wf(z) && 0 <= i < z.rows && 0 <= n <= z.cols
  {
    if n == 0 then 0.0 else ScaledExpSum(z, i, shift, inv, n - 1) + Exp(Get(z, i, n - 1) - shift) * inv
  }

  lemma {:induction false} ScaledExpSumFactor(z: Mat, i: int, shift: real, inv: real, n: int)
    requires Wf(z) && 0 <= i < z.rows && 0 <= n <= z.cols
    ensures ScaledExpSum(z, i, shift, inv, n) == ExpSum(z, i, shift, n) * inv
  {
    if n > 0 { ScaledExpSumFactor(z, i, shift, inv, n - 1); }
  }

  lemma Reciprocal(s: real)
    requires s > 0.0
    ensures 1.0 / s > 0.0 && s * (1.0 / s) == 1.0
  {}

  lemma PositiveProduct(x: real, y: real)
    requires x > 0.0 && y > 0.0
    ensures x * y > 0.0
  {}

  /** Before clipping, every softmax row is a probability distribution: positive cells summing to 1. */
  lemma {:induction false} SoftmaxRawSumsToOne(z: Mat, i: int)
    requires Wf(z) && 0 <= i < z.rows && z.cols >= 1
    ensures forall j :: 0 <= j < z.cols ==> SoftmaxRaw(z, i, j) > 0.0
    ensures ScaledExpSum(z, i, Shift(z, i), 1.0 / Normalizer(z, i), z.cols) == 1.0
  {
    var mx := Shift(z, i);
    var s := Normalizer(z, i);
    ScaledExpSumFactor(z, i, mx, 1.0 / s, z.cols);
    Reciprocal(s);
    forall j | 0 <= j < z.cols ensures SoftmaxRaw(z, i, j) > 0.0 {
      PositiveProduct(Exp(Get(z, i, j) - mx), 1.0 / s);
    }
  }

  // ------------------------------------------------------------ forward pass

  /** Cell (i, j) of `apply(z)` for every kind but LOG_SOFTMAX. */
  function OutCell(k: Kind, z: Mat, i: int, j: int): real
    requires Wf(z) && k != LogSoftmax && 0 <= i < z.rows && 0 <= j < z.cols
  {
    if k == Softmax then SoftmaxCell(z, i, j) else Forward(k, Get(z, i, j))
  }

  /** What `apply(z)` returns or throws, as a value: the layers are specified with it. */
  function Activated(k: Kind, z: Mat): (r: Result<Mat>)
    requires Wf(z)
    ensures r.Err? <==> z.rows == 0 || z.cols == 0 || k == LogSoftmax
    ensures r.Ok? ==> Wf(r.value) && r.value.rows == z.rows && r.value.cols == z.cols
  {
    if z.rows == 0 || z.cols == 0 then Err("Matrix indices out of bounds")
    else if k == LogSoftmax then Err("Log-Softmax not implemented.")
    else Ok(Tabulate(z.rows, z.cols, (i, j) => if 0 <= i < z.rows && 0 <= j < z.cols then OutCell(k, z, i, j) else 0.0))
  }

  /**
   * What `apply` computes: LINEAR is the identity, the other element-wise
   * kinds map every cell on its own, SOFTMAX gives the clipped row softmax.
   */
  lemma ActivatedCells(k: Kind, z: Mat)
    requires Wf(z) && Activated(k, z).Ok?
    ensures k == Linear ==> Activated(k, z).value == z
    ensures Elementwise(k) ==> forall i, j :: 0 <= i < z.rows && 0 <= j < z.cols ==>
      Get(Activated(k, z).value, i, j) == Forward(k, Get(z, i, j))
    ensures k == Softmax ==> forall i, j :: 0 <= i < z.rows && 0 <= j < z.cols ==>
      Get(Activated(k, z).value, i, j) == SoftmaxCell(z, i, j)
  {
    if k == Linear {
      Ext(z, Activated(k, z).value);
    }
  }

  /**
   * `apply(z)`: a copy of z transformed in place. Reading `&result(0, 0)`
   * throws on a matrix with no cells, for every kind; LOG_SOFTMAX throws.
   */
  method Apply(k: Kind, z: Mat) returns (r: Result<Mat>)
    requires Wf(z)
    ensures r.Err? <==> z.rows == 0 || z.cols == 0 || k == LogSoftmax
    ensures r == Activated(k, z)
  {
    if z.rows == 0 || z.cols == 0 {
      return Err("Matrix indices out of bounds");
    }
    if k == LogSoftmax {
      return Err("Log-Softmax not implemented.");
    }
    if k == Linear {
      Ext(z, Activated(k, z).value);
      return Ok(z);
    }
    if k == Softmax {
      var d := SoftmaxRows(z);
      return Ok(d);
    }
    var d := ElementwiseCells(k, z);
    return Ok(d);
  }

  /** A matrix that agrees with `apply`'s formula on every cell is its value. */
  lemma ActivatedFromCells(k: Kind, z: Mat, d: Mat)
    requires Wf(z) && z.rows > 0 && z.cols > 0 && k != LogSoftmax
    requires Wf(d) && d.rows == z.rows && d.cols == z.cols
    requires forall i, j :: 0 <= i < z.rows && 0 <= j < z.cols ==> Get(d, i, j) == OutCell(k, z, i, j)
    ensures Activated(k, z) == Ok(d)
  {
    Ext(d, Activated(k, z).value);
  }

  /** The SOFTMAX branch of `apply`, row by row. */
  method SoftmaxRows(z: Mat) returns (d: Mat)
    requires Wf(z) && z.rows > 0 && z.cols > 0
    ensures Activated(Softmax, z) == Ok(d)
  {
    d := z;
    var row := 0;
    while row < z.rows
      invariant 0 <= row <= z.rows
      invariant Wf(d) && d.rows == z.rows && d.cols == z.cols
      invariant forall i, j :: 0 <= i < z.rows && 0 <= j < z.cols ==>
        Get(d, i, j) == if i < row then SoftmaxCell(z, i, j) else Get(z, i, j)
    {
      d := SoftmaxRow(z, d, row);
      row := row + 1;
    }
    ActivatedFromCells(Softmax, z, d);
  }

  /** The element-wise branches of `apply`, over the flat buffer. */
  method ElementwiseCells(k: Kind, z: Mat) returns (d: Mat)
    requires Wf(z) && z.rows > 0 && z.cols > 0 && Elementwise(k)
    ensures Activated(k, z) == Ok(d)
  {
    var data := z.data;
    var n := 0;
    while n < |data|
      invariant 0 <= n <= |data| == |z.data|
      invariant forall q :: 0 <= q < |data| ==> data[q] == if q < n then Forward(k, z.data[q]) else z.data[q]
    {
      data := data[n := Forward(k, data[n])];
      n := n + 1;
    }
    d := Mat(z.rows, z.cols, data);
    FlatCells(z, z, d, (x: real, y: real) => Forward(k, x));
    ActivatedFromCells(k, z, d);
  }

  /** The running max of one row, scanning left to right with a strict `>`. */
  method RowMaxScan(z: Mat, i: int) returns (mx: real)
    requires Wf(z) && 0 <= i < z.rows && z.cols >= 1
    ensures mx == Shift(z, i)
  {
    mx := Get(z, i, 0);
    var c := 1;
    while c < z.cols
      invariant 1 <= c <= z.cols
      invariant mx == RowMax(z, i, c)
    {
      if Get(z, i, c) > mx { mx := Get(z, i, c); }
      c := c + 1;
    }
  }

  /** Exponentiate row i shifted by mx in place and return the row's sum. */
  method ExpRow(z: Mat, d0: Mat, i: int, mx: real) returns (d: Mat, sum: real)
    requires Wf(z) && Wf(d0) && d0.rows == z.rows && d0.cols == z.cols && 0 <= i < z.rows
    requires forall j :: 0 <= j < z.cols ==> Get(d0, i, j) == Get(z, i, j)
    ensures Wf(d) && d.rows == z.rows && d.cols == z.cols
    ensures sum == ExpSum(z, i, mx, z.cols)
    ensures forall p, j :: 0 <= p < z.rows && 0 <= j < z.cols ==>
      Get(d, p, j) == if p == i then Exp(Get(z, i, j) - mx) else Get(d0, p, j)
  {
    d := d0;
    sum := 0.0;
    var c := 0;
    while c < z.cols
      invariant 0 <= c <= z.cols
      invariant Wf(d) && d.rows == z.rows && d.cols == z.cols
      invariant sum == ExpSum(z, i, mx, c)
      invariant forall p, j :: 0 <= p < z.rows && 0 <= j < z.cols ==>
        Get(d, p, j) == if p == i && j < c then Exp(Get(z, i, j) - mx) else Get(d0, p, j)
    {
      var v := Exp(Get(d, i, c) - mx);
      d := Set(d, i, c, v);
      sum := sum + v;
      c := c + 1;
    }
  }

  /** Multiply row i by inv and clip each cell into [EPSILON, 1 - EPSILON]. */
  method NormalizeRow(d0: Mat, i: int, inv: real) returns (d: Mat)
    requires Wf(d0) && 0 <= i < d0.rows
    ensures Wf(d) && d.rows == d0.rows && d.cols == d0.cols
    ensures forall p, j :: 0 <= p < d0.rows && 0 <= j < d0.cols ==>
      Get(d, p, j) == if p == i then Clip(Get(d0, i, j) * inv) else Get(d0, p, j)
  {
    d := d0;
    var c := 0;
    while c < d0.cols
      invariant 0 <= c <= d0.cols
      invariant Wf(d) && d.rows == d0.rows && d.cols == d0.cols
      invariant forall p, j :: 0 <= p < d0.rows && 0 <= j < d0.cols ==>
        Get(d, p, j) == if p == i && j < c then Clip(Get(d0, i, j) * inv) else Get(d0, p, j)
    {
      var prob := Get(d, i, c) * inv;
      if prob < Epsilon { prob := Epsilon; }
      if prob > 1.0 - Epsilon { prob := 1.0 - Epsilon; }
      d := Set(d, i, c, prob);
      c := c + 1;
    }
  }

  /** One softmax row in place: max, exponentiate and sum, then normalise and clip. */
  method SoftmaxRow(z: Mat, d0: Mat, i: int) returns (d: Mat)
    requires Wf(z) && Wf(d0) && d0.rows == z.rows && d0.cols == z.cols && z.cols >= 1 && 0 <= i < z.rows
    requires forall j :: 0 <= j < z.cols ==> Get(d0, i, j) == Get(z, i, j)
    ensures Wf(d) && d.rows == z.rows && d.cols == z.cols
    ensures forall p, j :: 0 <= p < z.rows && 0 <= j < z.cols ==>
      Get(d, p, j) == if p == i then SoftmaxCell(z, i, j) else Get(d0, p, j)
  {
    var mx := RowMaxScan(z, i);
    var e, sum := ExpRow(z, d0, i, mx);
    var inv := 1.0 / sum;
    d := NormalizeRow(e, i, inv);
    forall p, j | 0 <= p < z.rows && 0 <= j < z.cols
      ensures Get(d, p, j) == if p == i then SoftmaxCell(z, i, j) else Get(d0, p, j)
    {
      if p == i {
        SoftmaxCellFromScan(z, e, i, j, mx, sum, inv);
      }
    }
  }

  /** The scanned maximum, exponentials and reciprocal sum give exactly SoftmaxCell. */
  lemma SoftmaxCellFromScan(z: Mat, e: Mat, i: int, j: int, mx: real, sum: real, inv: real)
    requires Wf(z) && 0 <= i < z.rows && 0 <= j < z.cols
    requires mx == Shift(z, i) && sum == ExpSum(z, i, mx, z.cols) && inv == 1.0 / sum
    requires Wf(e) && e.rows == z.rows && e.cols == z.cols && Get(e, i, j) == Exp(Get(z, i, j) - mx)
    ensures Clip(Get(e, i, j) * inv) == SoftmaxCell(z, i, j)
  {
    assert sum == Normalizer(z, i);
  }

  // ----------------------------------------------------------- backward pass

  /** Sum over c < n of a(i, c) * g(i, c): the row dot product of softmax backprop. */
  function RowDot(a: Mat, g: Mat, i: int, n: int): real
    requires Wf(a) && Wf(g) && g.rows == a.rows && g.cols == a.cols && 0 <= i < a.rows && 0 <= n <= a.cols
  {
    if n == 0 then 0.0 else RowDot(a, g, i, n - 1) + Get(a, i, n - 1) * Get(g, i, n - 1)
  }

  /** The whole-row dot product <a(i, .), g(i, .)> of softmax backprop. */
  function RowWeight(a: Mat, g: Mat, i: int): real
    requires Wf(a) && Wf(g) && g.rows == a.rows && g.cols == a.cols && 0 <= i < a.rows
  {
    RowDot(a, g, i, a.cols)
  }

  /** Cell (i, j) of `backprop(a, g)` for every kind but LOG_SOFTMAX. */
  function BackCell(k: Kind, a: Mat, g: Mat, i: int, j: int): real
    requires Wf(a) && Wf(g) && g.rows == a.rows && g.cols == a.cols && k != LogSoftmax
    requires 0 <= i < a.rows && 0 <= j < a.cols
  {
    if k == Softmax then Get(a, i, j) * (Get(g, i, j) - RowWeight(a, g, i))
    else LocalGrad(k, Get(a, i, j), Get(g, i, j))
  }

  /** The dZ that a successful `backprop(a, g, dZ)` leaves, as a value: the layers are specified with it. */
  function Backpropagated(k: Kind, a: Mat, g: Mat): (dz: Mat)
    requires Wf(a) && Wf(g) && g.rows == a.rows && g.cols == a.cols && k != LogSoftmax
    ensures Wf(dz) && dz.rows == a.rows && dz.cols == a.cols
  {
    Tabulate(a.rows, a.cols, (i, j) => if 0 <= i < a.rows && 0 <= j < a.cols then BackCell(k, a, g, i, j) else 0.0)
  }

  /**
   * `backprop(a, g, dZ)`: dZ is first replaced by a zero matrix of a's shape
   * when its shape differs, then overwritten with the vector-Jacobian
   * product; LOG_SOFTMAX throws after the resize. The upstream gradient g
   * has a's shape.
   */
  method Backprop(k: Kind, a: Mat, g: Mat, dZ: Mat) returns (dz: Mat, r: Result<()>)
    requires Wf(a) && Wf(g) && Wf(dZ) && g.rows == a.rows && g.cols == a.cols
    ensures Wf(dz) && dz.rows == a.rows && dz.cols == a.cols
    ensures r.Err? <==> k == LogSoftmax
    ensures r.Err? ==> dz == if dZ.rows == a.rows && dZ.cols == a.cols then dZ else Zeros(a.rows, a.cols)
    ensures r.Ok? ==> dz == Backpropagated(k, a, g)
  {
    dz := if dZ.rows == a.rows && dZ.cols == a.cols then dZ else Zeros(a.rows, a.cols);
    if k == LogSoftmax {
      return dz, Err("Backprop not defined for this activation type.");
    }
    if k == Linear {
      // memcpy of the gradient buffer.
      Ext(g, Backpropagated(k, a, g));
      return g, Ok(());
    }
    if k == Softmax {
      dz := SoftmaxBack(a, g, dz);
      return dz, Ok(());
    }
    dz := ElementwiseBack(k, a, g, dz);
    return dz, Ok(());
  }

  /**
   * What `backprop` computes: LINEAR passes g through, the other element-wise
   * kinds scale each cell by the local derivative, SOFTMAX gives the
   * row-wise vector-Jacobian product a * (g - <a, g>).
   */
  lemma BackpropagatedCells(k: Kind, a: Mat, g: Mat)
    requires Wf(a) && Wf(g) && g.rows == a.rows && g.cols == a.cols && k != LogSoftmax
    ensures k == Linear ==> Backpropagated(k, a, g) == g
    ensures Elementwise(k) ==> forall i, j :: 0 <= i < a.rows && 0 <= j < a.cols ==>
      Get(Backpropagated(k, a, g), i, j) == LocalGrad(k, Get(a, i, j), Get(g, i, j))
    ensures k == Softmax ==> forall i, j :: 0 <= i < a.rows && 0 <= j < a.cols ==>
      Get(Backpropagated(k, a, g), i, j) == Get(a, i, j) * (Get(g, i, j) - RowWeight(a, g, i))
  {
    if k == Linear {
      BackCells(k, a, g);
      Ext(g, Backpropagated(k, a, g));
    } else if k == Softmax {
      SoftmaxBackCells(a, g);
    } else {
      LocalGradCells(k, a, g);
    }
  }

  /** The cells of `Backpropagated` for an element-wise kind. */
  lemma LocalGradCells(k: Kind, a: Mat, g: Mat)
    requires Wf(a) && Wf(g) && g.rows == a.rows && g.cols == a.cols && Elementwise(k)
    ensures forall i, j :: 0 <= i < a.rows && 0 <= j < a.cols ==>
      Get(Backpropagated(k, a, g), i, j) == LocalGrad(k, Get(a, i, j), Get(g, i, j))
  {
    BackCells(k, a, g);
  }

  /** The cells of `Backpropagated` for SOFTMAX. */
  lemma SoftmaxBackCells(a: Mat, g: Mat)
    requires Wf(a) && Wf(g) && g.rows == a.rows && g.cols == a.cols
    ensures forall i, j :: 0 <= i < a.rows && 0 <= j < a.cols ==>
      Get(Backpropagated(Softmax, a, g), i, j) == Get(a, i, j) * (Get(g, i, j) - RowWeight(a, g, i))
  {
    BackCells(Softmax, a, g);
  }

  /** Every cell of `Backpropagated` is given by `BackCell`. */
  lemma BackCells(k: Kind, a: Mat, g: Mat)
    requires Wf(a) && Wf(g) && g.rows == a.rows && g.cols == a.cols && k != LogSoftmax
    ensures forall i, j :: 0 <= i < a.rows && 0 <= j < a.cols ==>
      Get(Backpropagated(k, a, g), i, j) == BackCell(k, a, g, i, j)
  {
  }

  /** A matrix that agrees with `backprop`'s formula on every cell is its value. */
  lemma BackpropagatedFromCells(k: Kind, a: Mat, g: Mat, dz: Mat)
    requires Wf(a) && Wf(g) && g.rows == a.rows && g.cols == a.cols && k != LogSoftmax
    requires Wf(dz) && dz.rows == a.rows && dz.cols == a.cols
    requires forall i, j :: 0 <= i < a.rows && 0 <= j < a.cols ==> Get(dz, i, j) == BackCell(k, a, g, i, j)
    ensures dz == Backpropagated(k, a, g)
  {
    Ext(dz, Backpropagated(k, a, g));
  }

  /** The element-wise branches of `backprop`, over the flat buffers. */
  method ElementwiseBack(k: Kind, a: Mat, g: Mat, dz0: Mat) returns (dz: Mat)
    requires Elementwise(k) && Wf(a) && Wf(g) && Wf(dz0) && g.rows == a.rows && g.cols == a.cols
    requires dz0.rows == a.rows && dz0.cols == a.cols
    ensures Wf(dz) && dz.rows == a.rows && dz.cols == a.cols
    ensures forall i, j :: 0 <= i < a.rows && 0 <= j < a.cols ==> Get(dz, i, j) == LocalGrad(k, Get(a, i, j), Get(g, i, j))
    ensures dz == Backpropagated(k, a, g)
  {
    var out := dz0.data;
    var n := 0;
    while n < |out|
      invariant 0 <= n <= |out| == |a.data|
      invariant forall q :: 0 <= q < n ==> out[q] == LocalGrad(k, a.data[q], g.data[q])
    {
      out := out[n := LocalGrad(k, a.data[n], g.data[n])];
      n := n + 1;
    }
    dz := Mat(a.rows, a.cols, out);
    FlatCells(a, g, dz, (x: real, y: real) => LocalGrad(k, x, y));
    BackpropagatedFromCells(k, a, g, dz);
  }

  /** The SOFTMAX branch of `backprop`, row by row. */
  method SoftmaxBack(a: Mat, g: Mat, dz0: Mat) returns (dz: Mat)
    requires Wf(a) && Wf(g) && Wf(dz0) && g.rows == a.rows && g.cols == a.cols
    requires dz0.rows == a.rows && dz0.cols == a.cols
    ensures Wf(dz) && dz.rows == a.rows && dz.cols == a.cols
    ensures forall i, j :: 0 <= i < a.rows && 0 <= j < a.cols ==>
      Get(dz, i, j) == Get(a, i, j) * (Get(g, i, j) - RowWeight(a, g, i))
    ensures dz == Backpropagated(Softmax, a, g)
  {
    dz := dz0;
    var row := 0;
    while row < g.rows
      invariant 0 <= row <= g.rows
      invariant Wf(dz) && dz.rows == a.rows && dz.cols == a.cols
      invariant forall i, j :: 0 <= i < a.rows && 0 <= j < a.cols ==>
        Get(dz, i, j) == if i < row then Get(a, i, j) * (Get(g, i, j) - RowWeight(a, g, i)) else Get(dz0, i, j)
    {
      dz := SoftmaxBackRow(a, g, dz, row);
      row := row + 1;
    }
    BackpropagatedFromCells(Softmax, a, g, dz);
  }

  /** One row of the softmax vector-Jacobian product: dz = a * (g - <a, g>). */
  method SoftmaxBackRow(a: Mat, g: Mat, dz0: Mat, i: int) returns (dz: Mat)
    requires Wf(a) && Wf(g) && Wf(dz0) && g.rows == a.rows && g.cols == a.cols
    requires dz0.rows == a.rows && dz0.cols == a.cols && 0 <= i < a.rows
    ensures Wf(dz) && dz.rows == a.rows && dz.cols == a.cols
    ensures forall p, j :: 0 <= p < a.rows && 0 <= j < a.cols ==>
      Get(dz, p, j) == if p == i then Get(a, i, j) * (Get(g, i, j) - RowWeight(a, g, i)) else Get(dz0, p, j)
  {
    var dot := 0.0;
    var c := 0;
    while c < a.cols
      invariant 0 <= c <= a.cols
      invariant dot == RowDot(a, g, i, c)
    {
      dot := dot + Get(a, i, c) * Get(g, i, c);
      c := c + 1;
    }
    assert dot == RowWeight(a, g, i);
    dz := dz0;
    c := 0;
    while c < a.cols
      invariant 0 <= c <= a.cols
      invariant Wf(dz) && dz.rows == a.rows && dz.cols == a.cols
      invariant forall p, j :: 0 <= p < a.rows && 0 <= j < a.cols ==>
        Get(dz, p, j) == if p == i && j < c then Get(a, i, j) * (Get(g, i, j) - dot) else Get(dz0, p, j)
    {
      dz := Set(dz, i, c, Get(a, i, c) * (Get(g, i, c) - dot));
      c := c + 1;
    }
  }

  /**
   * `derivative(z)`: f'(z) cell by cell from the pre-activation; SOFTMAX and
   * LOG_SOFTMAX throw.
   */
  method Derivative(k: Kind, z: Mat) returns (r: Result<Mat>)
    requires Wf(z)
    ensures r.Err? <==> !Elementwise(k)
    ensures r.Ok? ==> Wf(r.value) && r.value.rows == z.rows && r.value.cols == z.cols
    ensures r.Ok? ==> forall i, j :: 0 <= i < z.rows && 0 <= j < z.cols ==> Get(r.value, i, j) == DerivativeAt(k, Get(z, i, j))
  {
    if !Elementwise(k) {
      return Err("Derivative not defined for this activation type.");
    }
    var d := z;
    var i := 0;
    while i < z.rows
      invariant 0 <= i <= z.rows
      invariant Wf(d) && d.rows == z.rows && d.cols == z.cols
      invariant forall p, q :: 0 <= p < z.rows && 0 <= q < z.cols ==>
        Get(d, p, q) == if p < i then DerivativeAt(k, Get(z, p, q)) else Get(z, p, q)
    {
      var j := 0;
      while j < z.cols
        invariant 0 <= j <= z.cols
        invariant Wf(d) && d.rows == z.rows && d.cols == z.cols
        invariant forall p, q :: 0 <= p < z.rows && 0 <= q < z.cols ==>
          Get(d, p, q) == if p < i || (p == i && q < j) then DerivativeAt(k, Get(z, p, q)) else Get(z, p, q)
      {
        d := Set(d, i, j, DerivativeAt(k, Get(d, i, j)));
        j := j + 1;
      }
      i := i + 1;
    }
    return Ok(d);
  }

  // ------------------------------------------------------------ properties

  /** ReLU outputs are never negative and keep positive inputs. */
  lemma ReluRectifies(x: real)
    ensures Forward(Relu, x) >= 0.0
    ensures Forward(Relu, x) == if x > 0.0 then x else 0.0
    ensures x >= 0.0 ==> Forward(Relu, x) == x
  {}

  /**
   * `backprop` from the cached activation agrees with `derivative` at the
   * pre-activation, times the upstream gradient, for every element-wise kind.
   */
  lemma BackpropIsChainRule(k: Kind, x: real, g: real)
    requires Elementwise(k)
    ensures LocalGrad(k, Forward(k, x), g) == DerivativeAt(k, x) * g
  {
    match k
    case Linear =>
    case Relu =>
    case Sigmoid =>
      var s := Forward(Sigmoid, x);
      assert LocalGrad(k, s, g) == s * (1.0 - s) * g;
    case Tanh =>
  }

  /** The ReLU backprop example: a = [0, 0, 2], g = [1, 1, 1] gives [0, 0, 1]. */
  lemma ReluBackpropExample()
    ensures [LocalGrad(Relu, 0.0, 1.0), LocalGrad(Relu, 0.0, 1.0), LocalGrad(Relu, 2.0, 1.0)] == [0.0, 0.0, 1.0]
  {}
}
