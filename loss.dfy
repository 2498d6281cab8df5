// Loss functions of src/neuralnetwork/Loss.cpp. Each loss has a scalar
// `calculate` (what the training loop reports) and a `gradient` dL/dY with
// the prediction's shape. MSE and the two probability cross-entropies are a
// `reduce` and a `map` over the prediction; the logits cross-entropy loops
// over rows with a running max and exponential sum.
//
// `target(row, col)` is a bounds-checked read: a target smaller than the
// prediction throws as soon as a cell of the prediction is visited.
module Losses {
  import opened Common
  import opened MatrixSpec
  import Activations

  /** `EPSILON` of the cross-entropy clamps: 1e-7. */
  const Epsilon: real := 0.0000001

  /** Every cell (i, j) of p can be read from t with a bounds-checked access. */
  predicate Covers(p: Mat, t: Mat)
  {
    p.rows <= t.rows && p.cols <= t.cols
  }

  predicate HasCells(p: Mat)
  {
    p.rows > 0 && p.cols > 0
  }

  /** `target(row, col)`, read where Covers holds; 0 elsewhere, where the source would have thrown. */
  function At(t: Mat, i: int, j: int): real
    requires Wf(t)
  {
    if 0 <= i < t.rows && 0 <= j < t.cols then Get(t, i, j) else 0.0
  }

  /** `std::clamp(p, EPSILON, 1 - EPSILON)`. */
  function ClampProb(p: real): (c: real)
    ensures Epsilon <= c <= 1.0 - Epsilon
    ensures Epsilon <= p <= 1.0 - Epsilon ==> c == p
  {
    Clamp(p, Epsilon, 1.0 - Epsilon)
  }

  // ---------------------------------------------------------------- MSE

  /** The `reduce` step of MSE: add the squared difference. */
  function SquaredErrorStep(t: Mat): (real, int, int, real) -> real
    requires Wf(t)
  {
    (acc: real, i: int, j: int, v: real) => acc + (v - At(t, i, j)) * (v - At(t, i, j))
  }

  /** Σ (p - t)^2 over all cells, accumulated row-major. */
  function SquaredErrorSum(p: Mat, t: Mat): real
    requires Wf(p) && Wf(t)
  {
    Reduced(p, SquaredErrorStep(t), 0.0)
  }

  /**
   * `MeanSquaredError::calculate`: the squared-error sum over rows*cols.
   * Throws when the target does not cover the prediction.
   */
  function MseLoss(p: Mat, t: Mat): (r: Result<real>)
    requires Wf(p) && Wf(t) && HasCells(p)
    ensures r.Err? <==> !Covers(p, t)
  {
    if !Covers(p, t) then Err("Matrix indices out of bounds")
    else Ok(SquaredErrorSum(p, t) / (p.rows * p.cols) as real)
  }

  /** (2/N)·(p - t) in every cell, N = rows*cols; on a matrix with no cells the factor is never used. */
  function MseFactor(p: Mat): real
  {
    if p.rows * p.cols == 0 then 0.0 else 2.0 / (p.rows * p.cols) as real
  }

  function MseCell(p: Mat, t: Mat): (int, int, real) -> real
    requires Wf(t)
  {
    (i: int, j: int, v: real) => MseFactor(p) * (v - At(t, i, j))
  }

  /**
   * `MeanSquaredError::gradient` as intended: `prediction.map(factor * (pred
   * - true))` with `map` passing the prediction's cells (see
   * MseGradientAsWritten for the header's `map`).
   */
  function MseGradient(p: Mat, t: Mat): (r: Result<Mat>)
    requires Wf(p) && Wf(t)
    ensures r.Err? <==> HasCells(p) && !Covers(p, t)
    ensures r.Ok? ==> Wf(r.value) && r.value.rows == p.rows && r.value.cols == p.cols
    ensures r.Ok? ==> forall i, j :: 0 <= i < p.rows && 0 <= j < p.cols ==>
      Get(r.value, i, j) == (2.0 / (p.rows * p.cols) as real) * (Get(p, i, j) - Get(t, i, j))
  {
    if HasCells(p) && !Covers(p, t) then Err("Matrix indices out of bounds")
    else
      var g := Applied(p, MseCell(p, t));
      assert forall i, j :: 0 <= i < p.rows && 0 <= j < p.cols ==>
        Get(g, i, j) == (2.0 / (p.rows * p.cols) as real) * (Get(p, i, j) - Get(t, i, j)) by {
        forall i, j | 0 <= i < p.rows && 0 <= j < p.cols
          ensures Get(g, i, j) == (2.0 / (p.rows * p.cols) as real) * (Get(p, i, j) - Get(t, i, j))
        {
          assert HasCells(p);
          assert At(t, i, j) == Get(t, i, j);
          assert Get(g, i, j) == MseFactor(p) * (Get(p, i, j) - At(t, i, j));
        }
      }
      Ok(g)
  }

  /** Index k of the flat buffer is cell (k / cols, k % cols). */
  lemma FlatCell(m: Mat, k: nat)
    requires Wf(m) && k < |m.data|
    ensures m.cols > 0 && 0 <= k / m.cols < m.rows && 0 <= k % m.cols < m.cols
    ensures Get(m, k / m.cols, k % m.cols) == m.data[k]
  {
    DivMod(k, m.cols);
    if m.rows <= k / m.cols { MulMono(m.rows, k / m.cols, m.cols); }
  }

  /** w = x·y is positive for positive x and y; the product is passed in as w. */
  lemma Positive(x: real, y: real, w: real)
    requires x > 0.0 && y > 0.0 && w == x * y
    ensures w > 0.0
  {}

  /** A real square w = d·d is never negative, and is positive away from zero. */
  lemma Square(d: real, w: real)
    requires w == d * d
    ensures w >= 0.0
    ensures d != 0.0 ==> w > 0.0
  {
    if d > 0.0 {
      Positive(d, d, w);
    } else if d < 0.0 {
      var e := -d;
      assert w == e * e;
      Positive(e, e, w);
    }
  }

  /** Flat cell k of p equals the target's cell at the same row and column. */
  predicate CellMatches(p: Mat, t: Mat, k: nat)
    requires Wf(t) && p.cols > 0 && k < |p.data|
  {
    p.data[k] == At(t, k / p.cols, k % p.cols)
  }

  /** The partial squared-error sum is non-negative, and zero exactly when the first n cells agree. */
  lemma {:induction false} SquaredErrorPrefix(p: Mat, t: Mat, n: nat)
    requires Wf(p) && Wf(t) && p.cols > 0 && n <= |p.data|
    ensures FoldCells(p, SquaredErrorStep(t), 0.0, n) >= 0.0
    ensures FoldCells(p, SquaredErrorStep(t), 0.0, n) == 0.0 <==>
      forall k :: 0 <= k < n ==> CellMatches(p, t, k)
  {
    if n > 0 {
      SquaredErrorPrefix(p, t, n - 1);
      SquaredErrorGrows(p, t, n);
      PrefixSplit(p, t, n);
    }
  }

  /** Cell n - 1 adds a non-negative square, zero exactly when that cell matches. */
  lemma SquaredErrorGrows(p: Mat, t: Mat, n: nat)
    requires Wf(p) && Wf(t) && p.cols > 0 && 0 < n <= |p.data|
    ensures FoldCells(p, SquaredErrorStep(t), 0.0, n) >= FoldCells(p, SquaredErrorStep(t), 0.0, n - 1)
    ensures FoldCells(p, SquaredErrorStep(t), 0.0, n) == FoldCells(p, SquaredErrorStep(t), 0.0, n - 1) <==>
      CellMatches(p, t, n - 1)
  {
    var acc := FoldCells(p, SquaredErrorStep(t), 0.0, n - 1);
    var i, j, v := (n - 1) / p.cols, (n - 1) % p.cols, p.data[n - 1];
    assert FoldCells(p, SquaredErrorStep(t), 0.0, n) == SquaredErrorStep(t)(acc, i, j, v);
    var d := v - At(t, i, j);
    var w := d * d;
    SquaredErrorStepIs(t, acc, i, j, v, d, w);
    Square(d, w);
  }

  lemma SquaredErrorStepIs(t: Mat, acc: real, i: int, j: int, v: real, d: real, w: real)
    requires Wf(t) && d == v - At(t, i, j) && w == d * d
    ensures SquaredErrorStep(t)(acc, i, j, v) == acc + w
  {}

  /** The first n cells agree exactly when the first n - 1 do and cell n - 1 does. */
  lemma PrefixSplit(p: Mat, t: Mat, n: nat)
    requires Wf(t) && p.cols > 0 && 0 < n <= |p.data|
    ensures (forall k :: 0 <= k < n ==> CellMatches(p, t, k)) <==>
      (forall k :: 0 <= k < n - 1 ==> CellMatches(p, t, k)) && CellMatches(p, t, n - 1)
  {}

  /** MSE is non-negative, and it is 0 exactly when the prediction equals the target. */
  lemma MseZeroIffEqual(p: Mat, t: Mat)
    requires Wf(p) && Wf(t) && HasCells(p) && t.rows == p.rows && t.cols == p.cols
    ensures MseLoss(p, t).Ok? && MseLoss(p, t).value >= 0.0
    ensures MseLoss(p, t).value == 0.0 <==> p == t
  {
    SquaredErrorPrefix(p, t, |p.data|);
    var s := SquaredErrorSum(p, t);
    var n := (p.rows * p.cols) as real;
    assert n > 0.0;
    assert s / n >= 0.0;
    assert s / n == 0.0 <==> s == 0.0;
    if s == 0.0 {
      forall k | 0 <= k < |p.data| ensures p.data[k] == t.data[k] {
        assert CellMatches(p, t, k);
        FlatCell(p, k);
        FlatCell(t, k);
      }
    }
    if p == t {
      forall k | 0 <= k < |p.data| ensures CellMatches(p, t, k) {
        FlatCell(t, k);
      }
    }
  }

  /** At the target the MSE gradient vanishes. */
  lemma MseGradientZeroAtTarget(t: Mat)
    requires Wf(t)
    ensures MseGradient(t, t) == Ok(Zeros(t.rows, t.cols))
  {
    Ext(MseGradient(t, t).value, Zeros(t.rows, t.cols));
  }

  // --------------------------------------------------- probability cross-entropy

  /** The `reduce` step of CrossEntropyLoss: subtract t·log(clamp(p)). */
  function CrossEntropyStep(t: Mat): (real, int, int, real) -> real
    requires Wf(t)
  {
    (acc: real, i: int, j: int, v: real) => acc - At(t, i, j) * Log(ClampProb(v))
  }

  /** The `reduce` step of CategoricalCrossEntropyLoss: add -t·log(clamp(p)). */
  function CategoricalStep(t: Mat): (real, int, int, real) -> real
    requires Wf(t)
  {
    (acc: real, i: int, j: int, v: real) => acc + -At(t, i, j) * Log(ClampProb(v))
  }

  /** `CrossEntropyLoss::calculate`: the sum averaged over rows, not cells. */
  function CrossEntropyLoss(p: Mat, t: Mat): (r: Result<real>)
    requires Wf(p) && Wf(t) && p.rows > 0
    ensures r.Err? <==> HasCells(p) && !Covers(p, t)
  {
    if HasCells(p) && !Covers(p, t) then Err("Matrix indices out of bounds")
    else Ok(Reduced(p, CrossEntropyStep(t), 0.0) / p.rows as real)
  }

  /** `CategoricalCrossEntropyLoss::calculate`: the same sum, also averaged over rows. */
  function CategoricalLoss(p: Mat, t: Mat): (r: Result<real>)
    requires Wf(p) && Wf(t) && p.rows > 0
    ensures r.Err? <==> HasCells(p) && !Covers(p, t)
  {
    if HasCells(p) && !Covers(p, t) then Err("Matrix indices out of bounds")
    else Ok(Reduced(p, CategoricalStep(t), 0.0) / p.rows as real)
  }

  /** `-(t / clamp(p)) / n` with n = rows. */
  function CrossEntropyCell(p: Mat, t: Mat): (int, int, real) -> real
    requires Wf(t)
  {
    (i: int, j: int, v: real) => if p.rows == 0 then 0.0 else -(At(t, i, j) / ClampProb(v)) / p.rows as real
  }

  /** `-(t / clamp(p))` times batch_scale = 1/rows. */
  function CategoricalCell(p: Mat, t: Mat): (int, int, real) -> real
    requires Wf(t)
  {
    (i: int, j: int, v: real) => if p.rows == 0 then 0.0 else -(At(t, i, j) / ClampProb(v)) * (1.0 / p.rows as real)
  }

  /** `CrossEntropyLoss::gradient` as intended, with `map` passing the prediction's cells. */
  function CrossEntropyGradient(p: Mat, t: Mat): (r: Result<Mat>)
    requires Wf(p) && Wf(t)
    ensures r.Err? <==> HasCells(p) && !Covers(p, t)
    ensures r.Ok? ==> Wf(r.value) && r.value.rows == p.rows && r.value.cols == p.cols
  {
    if HasCells(p) && !Covers(p, t) then Err("Matrix indices out of bounds")
    else Ok(Applied(p, CrossEntropyCell(p, t)))
  }

  /** `CategoricalCrossEntropyLoss::gradient` as intended, with `map` passing the prediction's cells. */
  function CategoricalGradient(p: Mat, t: Mat): (r: Result<Mat>)
    requires Wf(p) && Wf(t)
    ensures r.Err? <==> HasCells(p) && !Covers(p, t)
    ensures r.Ok? ==> Wf(r.value) && r.value.rows == p.rows && r.value.cols == p.cols
  {
    if HasCells(p) && !Covers(p, t) then Err("Matrix indices out of bounds")
    else Ok(Applied(p, CategoricalCell(p, t)))
  }

  /** The two folds agree cell by cell, so the two losses are the same number. */
  lemma {:induction false} CrossEntropyFoldsAgree(p: Mat, t: Mat, n: nat)
    requires Wf(p) && Wf(t) && p.cols > 0 && n <= |p.data|
    ensures FoldCells(p, CrossEntropyStep(t), 0.0, n) == FoldCells(p, CategoricalStep(t), 0.0, n)
  {
    if n > 0 { CrossEntropyFoldsAgree(p, t, n - 1); }
  }

  /** CrossEntropyLoss and CategoricalCrossEntropyLoss report the same loss. */
  lemma CrossEntropyLossesAgree(p: Mat, t: Mat)
    requires Wf(p) && Wf(t) && p.rows > 0
    ensures CrossEntropyLoss(p, t) == CategoricalLoss(p, t)
  {
    if p.cols > 0 { CrossEntropyFoldsAgree(p, t, |p.data|); }
  }

  /** -(t / c) / n and -(t / c) * (1 / n) are the same number. */
  lemma DivideAsScale(q: real, n: real)
    requires n > 0.0
    ensures -q / n == -q * (1.0 / n)
  {}

  /** The CrossEntropyLoss and CategoricalCrossEntropyLoss gradients are identical: -(t / clamp(p)) / rows. */
  lemma CrossEntropyGradientsAgree(p: Mat, t: Mat)
    requires Wf(p) && Wf(t)
    ensures CrossEntropyGradient(p, t) == CategoricalGradient(p, t)
  {
    if CrossEntropyGradient(p, t).Ok? {
      var a, b := CrossEntropyGradient(p, t).value, CategoricalGradient(p, t).value;
      forall i, j | 0 <= i < p.rows && 0 <= j < p.cols ensures Get(a, i, j) == Get(b, i, j) {
        CrossEntropyCellsAgree(p, t, a, b, i, j);
      }
      Ext(a, b);
    }
  }

  lemma CrossEntropyCellsAgree(p: Mat, t: Mat, a: Mat, b: Mat, i: int, j: int)
    requires Wf(p) && Wf(t) && 0 <= i < p.rows && 0 <= j < p.cols
    requires CrossEntropyGradient(p, t) == Ok(a) && CategoricalGradient(p, t) == Ok(b)
    ensures Get(a, i, j) == Get(b, i, j)
  {
    var q := At(t, i, j) / ClampProb(Get(p, i, j));
    DivideAsScale(q, p.rows as real);
    assert Get(a, i, j) == -q / p.rows as real;
    assert Get(b, i, j) == -q * (1.0 / p.rows as real);
  }

  /**
   * The clamp keeps the cross-entropy gradient finite: with targets in [0, 1]
   * every cell lies in [-1/(1e-7·rows), 0].
   */
  lemma CrossEntropyGradientBounded(p: Mat, t: Mat, i: int, j: int)
    requires Wf(p) && Wf(t) && Covers(p, t) && 0 <= i < p.rows && 0 <= j < p.cols
    requires 0.0 <= Get(t, i, j) <= 1.0
    ensures CrossEntropyGradient(p, t).Ok?
    ensures var g := Get(CrossEntropyGradient(p, t).value, i, j);
      -(1.0 / Epsilon) / p.rows as real <= g <= 0.0
  {
    var c := ClampProb(Get(p, i, j));
    var y := Get(t, i, j);
    var q := y / c;
    QuotientBound(y, c, q);
    var n := p.rows as real;
    assert Get(CrossEntropyGradient(p, t).value, i, j) == -q / n;
    var inv := 1.0 / n;
    Activations.Reciprocal(n);
    DivideAsScale(q, n);
    DivideAsScale(1.0 / Epsilon, n);
    ScaleMono(-(1.0 / Epsilon), -q, inv, -(1.0 / Epsilon) * inv, -q * inv);
    ScaleMono(-q, 0.0, inv, -q * inv, 0.0 * inv);
  }

  /** A probability divided by a clamped prediction lies in [0, 1/EPSILON]. */
  lemma QuotientBound(y: real, c: real, q: real)
    requires 0.0 <= y <= 1.0 && c >= Epsilon && q == y / c
    ensures 0.0 <= q <= 1.0 / Epsilon
  {
    Activations.Reciprocal(c);
    assert q == y * (1.0 / c);
    NonNegativeProduct(y, 1.0 / c);
    assert q * c == y;
    ScaleMono(Epsilon, c, q, q * Epsilon, q * c);
  }

  /** For q >= 0 and a <= b, q·a <= q·b; the products are passed in. */
  lemma ScaleMono(a: real, b: real, q: real, v: real, w: real)
    requires a <= b && q >= 0.0 && v == q * a && w == q * b
    ensures v <= w
  {
    NonNegativeProduct(q, b - a);
    assert q * (b - a) == w - v;
  }

  // ------------------------------------------------ cross-entropy with logits

  /** Σ over c < n with t(i, c) > 0 of -t·((z - mx) - lse): the loss of row i's first n cells. */
  function LogitsRowLoss(z: Mat, t: Mat, i: int, mx: real, lse: real, n: int): real
    requires Wf(z) && Wf(t) && 0 <= i < z.rows && 0 <= n <= z.cols
  {
    if n == 0 then 0.0
    else
      var y := At(t, i, n - 1);
      LogitsRowLoss(z, t, i, mx, lse, n - 1) + (if y > 0.0 then -y * ((Get(z, i, n - 1) - mx) - lse) else 0.0)
  }

  /** The loss of row i: max-shift, log of the shifted exponential sum, sparse accumulation. */
  function LogitsRow(z: Mat, t: Mat, i: int): real
    requires Wf(z) && Wf(t) && 0 <= i < z.rows && z.cols > 0
  {
    var mx := Activations.RowMax(z, i, z.cols);
    LogitsRowLoss(z, t, i, mx, Log(Activations.ExpSum(z, i, mx, z.cols)), z.cols)
  }

  /** The sum of the first n row losses. */
  function LogitsTotal(z: Mat, t: Mat, n: int): real
    requires Wf(z) && Wf(t) && 0 <= n <= z.rows && z.cols > 0
  {
    if n == 0 then 0.0 else LogitsTotal(z, t, n - 1) + LogitsRow(z, t, n - 1)
  }

  /**
   * `CrossEntropyWithLogitsLoss::calculate`. Reading `prediction(r, 0)`
   * throws on a matrix without columns; `target(r, c)` throws when the
   * target does not cover the prediction.
   */
  method LogitsLoss(z: Mat, t: Mat) returns (r: Result<real>)
    requires Wf(z) && Wf(t) && z.rows > 0
    ensures r.Err? <==> z.cols == 0 || !Covers(z, t)
    ensures r.Ok? ==> r.value == LogitsTotal(z, t, z.rows) / z.rows as real
  {
    if z.cols == 0 || !Covers(z, t) {
      return Err("Matrix indices out of bounds");
    }
    var total := 0.0;
    var row := 0;
    while row < z.rows
      invariant 0 <= row <= z.rows
      invariant total == LogitsTotal(z, t, row)
    {
      var rowLoss := LogitsRowTotal(z, t, row);
      total := total + rowLoss;
      row := row + 1;
    }
    r := Ok(total / z.rows as real);
  }

  /** The loss of one row: max-shift, log-sum-exp, then the sparse accumulation. */
  method LogitsRowTotal(z: Mat, t: Mat, i: int) returns (rowLoss: real)
    requires Wf(z) && Wf(t) && Covers(z, t) && 0 <= i < z.rows && z.cols > 0
    ensures rowLoss == LogitsRow(z, t, i)
  {
    var mx := Activations.RowMaxScan(z, i);
    var sumExp := ExpSumScan(z, i, mx);
    var lse := Log(sumExp);
    rowLoss := LogitsRowScan(z, t, i, mx, lse);
  }

  /** The sparse accumulation of one row: only cells with t > 0 add -t·log_softmax. */
  method LogitsRowScan(z: Mat, t: Mat, i: int, mx: real, lse: real) returns (rowLoss: real)
    requires Wf(z) && Wf(t) && Covers(z, t) && 0 <= i < z.rows
    ensures rowLoss == LogitsRowLoss(z, t, i, mx, lse, z.cols)
  {
    rowLoss := 0.0;
    var c := 0;
    while c < z.cols
      invariant 0 <= c <= z.cols
      invariant rowLoss == LogitsRowLoss(z, t, i, mx, lse, c)
    {
      var y := Get(t, i, c);
      if y > 0.0 {
        var logSoftmax := (Get(z, i, c) - mx) - lse;
        rowLoss := rowLoss + -y * logSoftmax;
      }
      c := c + 1;
    }
  }

  /** Σ_c exp(z(i, c) - mx), accumulated left to right. */
  method ExpSumScan(z: Mat, i: int, mx: real) returns (s: real)
    requires Wf(z) && 0 <= i < z.rows
    ensures s == Activations.ExpSum(z, i, mx, z.cols)
  {
    s := 0.0;
    var c := 0;
    while c < z.cols
      invariant 0 <= c <= z.cols
      invariant s == Activations.ExpSum(z, i, mx, c)
    {
      s := s + Exp(Get(z, i, c) - mx);
      c := c + 1;
    }
  }

  /** Only cells with a positive target contribute: a row whose targets are all <= 0 costs nothing. */
  lemma {:induction false} LogitsSparse(z: Mat, t: Mat, i: int, mx: real, lse: real, n: int)
    requires Wf(z) && Wf(t) && 0 <= i < z.rows && 0 <= n <= z.cols
    requires forall c :: 0 <= c < n ==> At(t, i, c) <= 0.0
    ensures LogitsRowLoss(z, t, i, mx, lse, n) == 0.0
  {
    if n > 0 { LogitsSparse(z, t, i, mx, lse, n - 1); }
  }

  /** With a one-hot target row (1 at column y) the row loss is -log_softmax(z)[y]. */
  lemma {:induction false} LogitsOneHot(z: Mat, t: Mat, i: int, y: int, mx: real, lse: real, n: int)
    requires Wf(z) && Wf(t) && 0 <= i < z.rows && 0 <= y < n <= z.cols
    requires forall c :: 0 <= c < n ==> At(t, i, c) == if c == y then 1.0 else 0.0
    ensures LogitsRowLoss(z, t, i, mx, lse, n) == -((Get(z, i, y) - mx) - lse)
  {
    if n - 1 == y {
      LogitsSparse(z, t, i, mx, lse, n - 1);
    } else {
      LogitsOneHot(z, t, i, y, mx, lse, n - 1);
    }
  }

  /** The gradient of cell (i, j): (softmax - t) / rows, softmax unclipped. */
  function LogitsGradCell(z: Mat, t: Mat, i: int, j: int): real
    requires Wf(z) && Wf(t) && z.rows > 0 && 0 <= i < z.rows && 0 <= j < z.cols
  {
    (Activations.SoftmaxRaw(z, i, j) - At(t, i, j)) * (1.0 / z.rows as real)
  }

  /**
   * `CrossEntropyWithLogitsLoss::gradient`: a fresh zero matrix of the
   * prediction's shape, filled row by row. The target is read through its
   * raw buffer, so it must have the prediction's shape.
   */
  method LogitsGradient(z: Mat, t: Mat) returns (g: Mat)
    requires Wf(z) && Wf(t) && t.rows == z.rows && t.cols == z.cols
    ensures Wf(g) && g.rows == z.rows && g.cols == z.cols
    ensures forall i, j :: 0 <= i < z.rows && 0 <= j < z.cols ==> Get(g, i, j) == LogitsGradCell(z, t, i, j)
  {
    g := Zeros(z.rows, z.cols);
    if z.rows == 0 || z.cols == 0 { return; }
    var scale := 1.0 / z.rows as real;
    var row := 0;
    while row < z.rows
      invariant 0 <= row <= z.rows
      invariant Wf(g) && g.rows == z.rows && g.cols == z.cols
      invariant forall i, j :: 0 <= i < row && 0 <= j < z.cols ==> Get(g, i, j) == LogitsGradCell(z, t, i, j)
    {
      g := LogitsGradientRow(z, t, g, row, scale);
      row := row + 1;
    }
  }

  /** One row of the logits gradient: max, exponential sum, then (exp(z - max)·inv_sum - t)·batch_scale. */
  method LogitsGradientRow(z: Mat, t: Mat, g0: Mat, i: int, scale: real) returns (g: Mat)
    requires Wf(z) && Wf(t) && t.rows == z.rows && t.cols == z.cols && z.cols > 0 && 0 <= i < z.rows
    requires Wf(g0) && g0.rows == z.rows && g0.cols == z.cols && scale == 1.0 / z.rows as real
    ensures Wf(g) && g.rows == z.rows && g.cols == z.cols
    ensures forall p, j :: 0 <= p < z.rows && 0 <= j < z.cols ==>
      Get(g, p, j) == if p == i then LogitsGradCell(z, t, i, j) else Get(g0, p, j)
  {
    var mx := Activations.RowMaxScan(z, i);
    var sumExp := ExpSumScan(z, i, mx);
    var invSum := 1.0 / sumExp;
    g := g0;
    var c := 0;
    while c < z.cols
      invariant 0 <= c <= z.cols
      invariant Wf(g) && g.rows == z.rows && g.cols == z.cols
      invariant forall p, j :: 0 <= p < z.rows && 0 <= j < z.cols ==>
        Get(g, p, j) == if p == i && j < c then LogitsGradCell(z, t, i, j) else Get(g0, p, j)
    {
      g := WriteGradCell(z, t, g, i, c, mx, invSum, scale);
      c := c + 1;
    }
  }

  /** The loop body: g(i, c) := (exp(z(i, c) - max)·inv_sum - t(i, c))·batch_scale. */
  method WriteGradCell(z: Mat, t: Mat, g0: Mat, i: int, c: int, mx: real, inv: real, scale: real) returns (g: Mat)
    requires Wf(z) && Wf(t) && t.rows == z.rows && t.cols == z.cols && 0 <= i < z.rows && 0 <= c < z.cols
    requires mx == Activations.Shift(z, i) && inv == 1.0 / Activations.Normalizer(z, i)
    requires Wf(g0) && g0.rows == z.rows && g0.cols == z.cols && scale == 1.0 / z.rows as real
    ensures Wf(g) && g.rows == z.rows && g.cols == z.cols
    ensures forall p, j :: 0 <= p < z.rows && 0 <= j < z.cols ==>
      Get(g, p, j) == if p == i && j == c then LogitsGradCell(z, t, i, j) else Get(g0, p, j)
  {
    var e := Exp(Get(z, i, c) - mx);
    var softmax := e * inv;
    var x := (softmax - Get(t, i, c)) * scale;
    GradCellFromScan(z, t, i, c, mx, inv, scale, x);
    g := Set(g0, i, c, x);
  }

  /** The scan's cell value, computed from the row's max and reciprocal sum, is the specified gradient cell. */
  lemma GradCellFromScan(z: Mat, t: Mat, i: int, j: int, mx: real, inv: real, scale: real, x: real)
    requires Wf(z) && Wf(t) && t.rows == z.rows && t.cols == z.cols && 0 <= i < z.rows && 0 <= j < z.cols
    requires mx == Activations.Shift(z, i) && inv == 1.0 / Activations.Normalizer(z, i)
    requires scale == 1.0 / z.rows as real && x == (Exp(Get(z, i, j) - mx) * inv - Get(t, i, j)) * scale
    ensures x == LogitsGradCell(z, t, i, j)
  {
    SoftmaxRawAt(z, i, j, mx, inv);
    assert At(t, i, j) == Get(t, i, j);
  }

  /** Σ over c < n of softmax(z)(i, c) - t(i, c): row i of the gradient before the batch scale. */
  function ErrorRowSum(z: Mat, t: Mat, i: int, n: int): real
    requires Wf(z) && Wf(t) && 0 <= i < z.rows && 0 <= n <= z.cols
  {
    if n == 0 then 0.0 else ErrorRowSum(z, t, i, n - 1) + (Activations.SoftmaxRaw(z, i, n - 1) - At(t, i, n - 1))
  }

  /** Σ over c < n of the targets of row i. */
  function TargetRowSum(t: Mat, i: int, n: int): real
    requires Wf(t)
  {
    if n <= 0 then 0.0 else TargetRowSum(t, i, n - 1) + At(t, i, n - 1)
  }

  /** (a - b)·s + (e - y)·s regrouped as ((a + e) - (b + y))·s. */
  /** Σ over c < n of the unclipped softmax of row i. */
  function SoftmaxRowSum(z: Mat, i: int, n: int): real
    requires Wf(z) && 0 <= i < z.rows && 0 <= n <= z.cols
  {
    if n == 0 then 0.0 else SoftmaxRowSum(z, i, n - 1) + Activations.SoftmaxRaw(z, i, n - 1)
  }

  lemma {:induction false} ErrorRowSumSplit(z: Mat, t: Mat, i: int, n: int)
    requires Wf(z) && Wf(t) && 0 <= i < z.rows && 0 <= n <= z.cols
    ensures ErrorRowSum(z, t, i, n) == SoftmaxRowSum(z, i, n) - TargetRowSum(t, i, n)
  {
    if n > 0 { ErrorRowSumSplit(z, t, i, n - 1); }
  }

  lemma {:induction false} SoftmaxRowSumScaled(z: Mat, i: int, n: int, mx: real, inv: real)
    requires Wf(z) && 0 <= i < z.rows && 0 <= n <= z.cols && z.cols > 0
    requires mx == Activations.Shift(z, i) && inv == 1.0 / Activations.Normalizer(z, i)
    ensures SoftmaxRowSum(z, i, n) == Activations.ScaledExpSum(z, i, mx, inv, n)
  {
    if n > 0 {
      SoftmaxRowSumScaled(z, i, n - 1, mx, inv);
      SoftmaxRawAt(z, i, n - 1, mx, inv);
      SoftmaxRowSumStep(z, i, n, mx, inv, Exp(Get(z, i, n - 1) - mx) * inv);
    }
  }

  /** Both sums grow by the same term x = softmax(z)(i, n - 1) = exp(z(i, n - 1) - max)·inv. */
  lemma SoftmaxRowSumStep(z: Mat, i: int, n: int, mx: real, inv: real, x: real)
    requires Wf(z) && 0 <= i < z.rows && 0 < n <= z.cols
    requires x == Activations.SoftmaxRaw(z, i, n - 1) && x == Exp(Get(z, i, n - 1) - mx) * inv
    ensures SoftmaxRowSum(z, i, n) == SoftmaxRowSum(z, i, n - 1) + x
    ensures Activations.ScaledExpSum(z, i, mx, inv, n) == Activations.ScaledExpSum(z, i, mx, inv, n - 1) + x
  {}

  /** The unclipped softmax of (i, j) is the shifted exponential times the reciprocal sum. */
  lemma SoftmaxRawAt(z: Mat, i: int, j: int, mx: real, inv: real)
    requires Wf(z) && 0 <= i < z.rows && 0 <= j < z.cols
    requires mx == Activations.Shift(z, i) && inv == 1.0 / Activations.Normalizer(z, i)
    ensures Activations.SoftmaxRaw(z, i, j) == Exp(Get(z, i, j) - mx) * inv
  {}

  /**
   * Before the batch scale, every gradient row sums to 1 - Σ targets, the
   * softmax row summing to one; with one-hot labels it sums to zero.
   */
  lemma LogitsGradientRowSum(z: Mat, t: Mat, i: int)
    requires Wf(z) && Wf(t) && 0 <= i < z.rows && z.cols > 0
    ensures ErrorRowSum(z, t, i, z.cols) == 1.0 - TargetRowSum(t, i, z.cols)
    ensures TargetRowSum(t, i, z.cols) == 1.0 ==> ErrorRowSum(z, t, i, z.cols) == 0.0
  {
    var mx := Activations.Shift(z, i);
    var inv := 1.0 / Activations.Normalizer(z, i);
    ErrorRowSumSplit(z, t, i, z.cols);
    SoftmaxRowSumScaled(z, i, z.cols, mx, inv);
    SoftmaxSumIsOne(z, i, mx, inv);
  }

  /** The shifted exponentials times the reciprocal of their sum add up to one. */
  lemma SoftmaxSumIsOne(z: Mat, i: int, mx: real, inv: real)
    requires Wf(z) && 0 <= i < z.rows && z.cols > 0
    requires mx == Activations.Shift(z, i) && inv == 1.0 / Activations.Normalizer(z, i)
    ensures Activations.ScaledExpSum(z, i, mx, inv, z.cols) == 1.0
  {
    Activations.SoftmaxRawSumsToOne(z, i);
  }

  /** Each unclipped softmax term is at most the sum of the first n terms, all being positive. */
  lemma {:induction false} SoftmaxTermBelowSum(z: Mat, i: int, mx: real, inv: real, j: int, n: int)
    requires Wf(z) && 0 <= i < z.rows && 0 <= j < n <= z.cols && inv > 0.0
    ensures Exp(Get(z, i, j) - mx) * inv <= Activations.ScaledExpSum(z, i, mx, inv, n)
  {
    Activations.PositiveProduct(Exp(Get(z, i, n - 1) - mx), inv);
    if j < n - 1 {
      SoftmaxTermBelowSum(z, i, mx, inv, j, n - 1);
      ScaledExpSumNonNegative(z, i, mx, inv, n - 1);
    } else {
      ScaledExpSumNonNegative(z, i, mx, inv, n - 1);
    }
  }

  lemma {:induction false} ScaledExpSumNonNegative(z: Mat, i: int, mx: real, inv: real, n: int)
    requires Wf(z) && 0 <= i < z.rows && 0 <= n <= z.cols && inv > 0.0
    ensures Activations.ScaledExpSum(z, i, mx, inv, n) >= 0.0
  {
    if n > 0 {
      ScaledExpSumNonNegative(z, i, mx, inv, n - 1);
      Activations.PositiveProduct(Exp(Get(z, i, n - 1) - mx), inv);
    }
  }

  /** A factor in [-1, 1] times a positive scale stays within the scale. */
  lemma WithinScale(d: real, s: real, w: real)
    requires -1.0 <= d <= 1.0 && s > 0.0 && w == d * s
    ensures -s <= w <= s
  {
    NonNegativeProduct(1.0 - d, s);
    NonNegativeProduct(d + 1.0, s);
    assert (1.0 - d) * s == s - w;
    assert (d + 1.0) * s == w + s;
  }

  lemma NonNegativeProduct(x: real, y: real)
    requires x >= 0.0 && y >= 0.0
    ensures x * y >= 0.0
  {}

  /** An unclipped softmax cell lies in (0, 1]. */
  lemma SoftmaxRawBounds(z: Mat, i: int, j: int)
    requires Wf(z) && 0 <= i < z.rows && 0 <= j < z.cols
    ensures 0.0 < Activations.SoftmaxRaw(z, i, j) <= 1.0
  {
    var mx := Activations.Shift(z, i);
    var inv := 1.0 / Activations.Normalizer(z, i);
    Activations.SoftmaxRawSumsToOne(z, i);
    SoftmaxTermBelowSum(z, i, mx, inv, j, z.cols);
  }

  /** With targets in [0, 1] every logits gradient cell lies in [-1/rows, 1/rows]: no explosions. */
  lemma LogitsGradientBounded(z: Mat, t: Mat, i: int, j: int)
    requires Wf(z) && Wf(t) && z.rows > 0 && 0 <= i < z.rows && 0 <= j < z.cols
    requires 0.0 <= At(t, i, j) <= 1.0
    ensures -(1.0 / z.rows as real) <= LogitsGradCell(z, t, i, j) <= 1.0 / z.rows as real
  {
    SoftmaxRawBounds(z, i, j);
    var d := Activations.SoftmaxRaw(z, i, j) - At(t, i, j);
    var s := 1.0 / z.rows as real;
    var w := LogitsGradCell(z, t, i, j);
    assert w == d * s;
    WithinScale(d, s, w);
  }

  // -------------------------------------------- the gradients as written

  /**
   * The header's `map` applies the function to a fresh zero matrix, so the
   * MSE gradient as written sees 0 for every prediction cell: -(2/N)·t.
   */
  function MseGradientAsWritten(p: Mat, t: Mat): (r: Mat)
    requires Wf(p) && Wf(t) && Covers(p, t)
    ensures Wf(r) && r.rows == p.rows && r.cols == p.cols
  {
    Applied(Zeros(p.rows, p.cols), MseCell(p, t))
  }

  /** As written, the MSE gradient does not depend on the prediction at all. */
  lemma MseGradientAsWrittenIgnoresPrediction(p: Mat, q: Mat, t: Mat)
    requires Wf(p) && Wf(q) && Wf(t) && Covers(p, t) && q.rows == p.rows && q.cols == p.cols
    ensures MseGradientAsWritten(p, t) == MseGradientAsWritten(q, t)
    ensures forall i, j :: 0 <= i < p.rows && 0 <= j < p.cols ==>
      Get(MseGradientAsWritten(p, t), i, j) == -MseFactor(p) * Get(t, i, j)
  {
    assert MseFactor(p) == MseFactor(q);
    forall i, j | 0 <= i < p.rows && 0 <= j < p.cols
      ensures Get(MseGradientAsWritten(p, t), i, j) == -MseFactor(p) * Get(t, i, j)
      ensures Get(MseGradientAsWritten(q, t), i, j) == -MseFactor(p) * Get(t, i, j)
    {
      AsWrittenCell(p, t, i, j);
      AsWrittenCell(q, t, i, j);
    }
    Ext(MseGradientAsWritten(p, t), MseGradientAsWritten(q, t));
  }

  lemma AsWrittenCell(p: Mat, t: Mat, i: int, j: int)
    requires Wf(p) && Wf(t) && Covers(p, t) && 0 <= i < p.rows && 0 <= j < p.cols
    ensures Get(MseGradientAsWritten(p, t), i, j) == -MseFactor(p) * Get(t, i, j)
  {
    AppliedToZeros(p, MseCell(p, t), i, j);
    MseCellAtZero(p, t, i, j);
  }

  lemma MseCellAtZero(p: Mat, t: Mat, i: int, j: int)
    requires Wf(t) && 0 <= i < t.rows && 0 <= j < t.cols
    ensures MseCell(p, t)(i, j, 0.0) == -MseFactor(p) * Get(t, i, j)
  {
    var f, y := MseFactor(p), Get(t, i, j);
    assert At(t, i, j) == y;
    assert MseCell(p, t)(i, j, 0.0) == f * (0.0 - y);
  }

  /** Mapping over the fresh zero matrix of p's shape feeds 0 to the function in every cell. */
  lemma AppliedToZeros(p: Mat, f: (int, int, real) -> real, i: int, j: int)
    requires 0 <= i < p.rows && 0 <= j < p.cols
    ensures Get(Applied(Zeros(p.rows, p.cols), f), i, j) == f(i, j, 0.0)
  {
    assert Get(Zeros(p.rows, p.cols), i, j) == 0.0;
  }

  /** A 1 x 1 example: prediction 3, target 1. The intended gradient is 4, the one written is -2. */
  lemma MseGradientExample()
    ensures MseGradient(Mat(1, 1, [3.0]), Mat(1, 1, [1.0])) == Ok(Mat(1, 1, [4.0]))
    ensures MseGradientAsWritten(Mat(1, 1, [3.0]), Mat(1, 1, [1.0])) == Mat(1, 1, [-2.0])
  {
    var p, t := Mat(1, 1, [3.0]), Mat(1, 1, [1.0]);
    assert Get(p, 0, 0) == 3.0 && Get(t, 0, 0) == 1.0;
    Ext(MseGradient(p, t).value, Mat(1, 1, [4.0]));
    Ext(MseGradientAsWritten(p, t), Mat(1, 1, [-2.0]));
  }

  /**
   * `CrossEntropyLoss::gradient` as written: through the header's `map` the
   * clamp sees 0 and lifts it to EPSILON, so every cell is -(t / 1e-7) / rows.
   */
  function CrossEntropyGradientAsWritten(p: Mat, t: Mat): (r: Mat)
    requires Wf(p) && Wf(t) && Covers(p, t)
    ensures Wf(r) && r.rows == p.rows && r.cols == p.cols
  {
    Applied(Zeros(p.rows, p.cols), CrossEntropyCell(p, t))
  }

  /** As written, the cross-entropy gradient is -(t / EPSILON) / rows whatever the prediction. */
  lemma CrossEntropyGradientAsWrittenIgnoresPrediction(p: Mat, q: Mat, t: Mat)
    requires Wf(p) && Wf(q) && Wf(t) && Covers(p, t) && q.rows == p.rows && q.cols == p.cols
    ensures CrossEntropyGradientAsWritten(p, t) == CrossEntropyGradientAsWritten(q, t)
    ensures forall i, j :: 0 <= i < p.rows && 0 <= j < p.cols ==>
      Get(CrossEntropyGradientAsWritten(p, t), i, j) == -(Get(t, i, j) / Epsilon) / p.rows as real
  {
    forall i, j | 0 <= i < p.rows && 0 <= j < p.cols
      ensures Get(CrossEntropyGradientAsWritten(p, t), i, j) == -(Get(t, i, j) / Epsilon) / p.rows as real
      ensures Get(CrossEntropyGradientAsWritten(q, t), i, j) == -(Get(t, i, j) / Epsilon) / p.rows as real
    {
      AppliedToZeros(p, CrossEntropyCell(p, t), i, j);
      AppliedToZeros(q, CrossEntropyCell(q, t), i, j);
      assert ClampProb(0.0) == Epsilon && At(t, i, j) == Get(t, i, j);
    }
    Ext(CrossEntropyGradientAsWritten(p, t), CrossEntropyGradientAsWritten(q, t));
  }

  /**
   * `CategoricalCrossEntropyLoss::gradient` as written: the same zero cells,
   * so every cell is -(t / 1e-7) * (1 / rows).
   */
  function CategoricalGradientAsWritten(p: Mat, t: Mat): (r: Mat)
    requires Wf(p) && Wf(t) && Covers(p, t)
    ensures Wf(r) && r.rows == p.rows && r.cols == p.cols
  {
    Applied(Zeros(p.rows, p.cols), CategoricalCell(p, t))
  }

  /** As written, the categorical gradient is -(t / EPSILON) * (1 / rows) whatever the prediction. */
  lemma CategoricalGradientAsWrittenIgnoresPrediction(p: Mat, q: Mat, t: Mat)
    requires Wf(p) && Wf(q) && Wf(t) && Covers(p, t) && q.rows == p.rows && q.cols == p.cols
    ensures CategoricalGradientAsWritten(p, t) == CategoricalGradientAsWritten(q, t)
    ensures forall i, j :: 0 <= i < p.rows && 0 <= j < p.cols ==>
      Get(CategoricalGradientAsWritten(p, t), i, j) == -(Get(t, i, j) / Epsilon) * (1.0 / p.rows as real)
  {
    forall i, j | 0 <= i < p.rows && 0 <= j < p.cols
      ensures Get(CategoricalGradientAsWritten(p, t), i, j) == -(Get(t, i, j) / Epsilon) * (1.0 / p.rows as real)
      ensures Get(CategoricalGradientAsWritten(q, t), i, j) == -(Get(t, i, j) / Epsilon) * (1.0 / p.rows as real)
    {
      AppliedToZeros(p, CategoricalCell(p, t), i, j);
      AppliedToZeros(q, CategoricalCell(q, t), i, j);
      assert ClampProb(0.0) == Epsilon && At(t, i, j) == Get(t, i, j);
    }
    Ext(CategoricalGradientAsWritten(p, t), CategoricalGradientAsWritten(q, t));
  }

  /**
   * A 1 x 1 example: prediction 0.5, target 1. The intended cross-entropy
   * gradient is -2; the one written is -10^7.
   */
  lemma CrossEntropyGradientExample()
    ensures CrossEntropyGradient(Mat(1, 1, [0.5]), Mat(1, 1, [1.0])) == Ok(Mat(1, 1, [-2.0]))
    ensures CrossEntropyGradientAsWritten(Mat(1, 1, [0.5]), Mat(1, 1, [1.0])) == Mat(1, 1, [-10000000.0])
  {
    var p, t := Mat(1, 1, [0.5]), Mat(1, 1, [1.0]);
    assert Get(p, 0, 0) == 0.5 && Get(t, 0, 0) == 1.0;
    assert ClampProb(0.5) == 0.5;
    Ext(CrossEntropyGradient(p, t).value, Mat(1, 1, [-2.0]));
    AppliedToZeros(p, CrossEntropyCell(p, t), 0, 0);
    Ext(CrossEntropyGradientAsWritten(p, t), Mat(1, 1, [-10000000.0]));
  }
}
