// The fully connected layer of src/neuralnetwork/DenseLayer.cpp. Its matrix
// members are values that `forward` and `backward` reassign: the weights
// and biases, their gradients, and the caches of the last passes. The
// arithmetic runs through the `Matrix` operations the source calls (`dot`
// into an out-parameter, `+=`, `transpose`, `fill`, `sumRows`) on
// temporary objects holding those values.
module DenseLayers {
  import opened Common
  import opened MatrixSpec
  import Matrices
  import Activations
  import Initializers
  import Layers

  /** The default seed of an `Initializer`, used for the ZEROS fill of the biases. */
  const DefaultSeed: nat := 42

  /** The pre-activation X * W + b, with b added to every row. */
  function PreActivation(w: Mat, b: Mat, x: Mat): (z: Mat)
    requires Wf(w) && Wf(b) && Wf(x) && b.rows == 1 && b.cols == w.cols && x.cols == w.rows
    ensures Wf(z) && z.rows == x.rows && z.cols == w.cols
  {
    RowBroadcastAdded(Product(x, w), b)
  }

  /** What `forward(X)` returns or throws, as a value. */
  function Output(w: Mat, b: Mat, k: Activations.Kind, x: Mat): (r: Result<Mat>)
    requires Wf(w) && Wf(b) && Wf(x) && b.rows == 1 && b.cols == w.cols
  {
    if x.cols != w.rows then Err("Dimension mismatch for dot product")
    else Activations.Activated(k, PreActivation(w, b, x))
  }

  /**
   * The forward pass computes act(X * W + b): it fails exactly on an input
   * of the wrong width, an empty batch or zero units, or LOG_SOFTMAX, and
   * otherwise gives a batch x units matrix whose cell (i, j) is the
   * activation of sum_k X(i, k) W(k, j) + b(0, j).
   */
  lemma OutputMeans(w: Mat, b: Mat, k: Activations.Kind, x: Mat)
    requires Wf(w) && Wf(b) && Wf(x) && b.rows == 1 && b.cols == w.cols
    ensures Output(w, b, k, x).Err? <==>
      x.cols != w.rows || x.rows == 0 || w.cols == 0 || k == Activations.LogSoftmax
    ensures Output(w, b, k, x).Ok? ==>
      var a := Output(w, b, k, x).value;
      Wf(a) && a.rows == x.rows && a.cols == w.cols
    ensures Output(w, b, k, x).Ok? && Activations.Elementwise(k) ==>
      forall i, j :: 0 <= i < x.rows && 0 <= j < w.cols ==>
        Get(Output(w, b, k, x).value, i, j) == Activations.Forward(k, DotRange(x, w, i, j, 0, x.cols) + Get(b, 0, j))
  {
    if Output(w, b, k, x).Ok? {
      var z := PreActivation(w, b, x);
      Activations.ActivatedCells(k, z);
      forall i, j | 0 <= i < x.rows && 0 <= j < w.cols
        ensures Get(z, i, j) == DotRange(x, w, i, j, 0, x.cols) + Get(b, 0, j)
      {
      }
    }
  }

  class DenseLayer {
    /** `in`: the width of an input row. */
    const inDim: nat
    /** `out`: the number of units. */
    const outDim: nat
    const activation: Activations.Kind
    const initializer: Initializers.Initializer

    var weights: Mat
    var biases: Mat
    var weightsGrad: Mat
    var biasesGrad: Mat

    var inputCache: Mat
    var zCache: Mat
    var aCache: Mat
    var dZ: Mat
    var inputTCache: Mat
    var weightsTCache: Mat
    var inputGradientsCache: Mat

    /**
     * Every member is well formed; the weights are in x out and the biases
     * and their gradient 1 x out; the activation cache is either unset or
     * out columns wide.
     */
    ghost predicate Valid()
      reads this
    {
      Wf(weights) && weights.rows == inDim && weights.cols == outDim &&
      Wf(biases) && biases.rows == 1 && biases.cols == outDim &&
      Wf(weightsGrad) && Wf(biasesGrad) && biasesGrad.rows == 1 && biasesGrad.cols == outDim &&
      Wf(inputCache) && Wf(zCache) && Wf(aCache) && Wf(dZ) &&
      Wf(inputTCache) && Wf(weightsTCache) && Wf(inputGradientsCache) &&
      (aCache == Mat(0, 0, []) || aCache.cols == outDim)
    }

    /** Each gradient has the shape of its parameter. */
    ghost predicate GradsFit()
      reads this
    {
      weightsGrad.rows == weights.rows && weightsGrad.cols == weights.cols &&
      biasesGrad.rows == biases.rows && biasesGrad.cols == biases.cols
    }

    /** A training `forward` succeeded: the caches hold one batch of in-wide inputs and out-wide activations. */
    ghost predicate Primed()
      reads this
    {
      inputCache.cols == inDim && aCache.rows == inputCache.rows && aCache.cols == outDim
    }

    /** `getParameters()`: the weights, then the biases. */
    function Parameters(): seq<Mat>
      reads this
    {
      [weights, biases]
    }

    /** `getParameterGradients()`: the weight gradient, then the bias gradient. */
    function Gradients(): seq<Mat>
      reads this
    {
      [weightsGrad, biasesGrad]
    }

    /** `getOutputShape()`: (1, 1, out), whose flat size is the unit count. */
    function OutputShape(): (d: Layers.Dims)
      reads this
      ensures d.depth == 1 && d.height == 1 && d.Flat() == outDim
    {
      Layers.Dims(1, 1, outDim)
    }

    /**
     * `DenseLayer(input_dim, units, act, init)`: weights of in x out filled
     * by the initializer, zero biases of 1 x out, zero gradients of the same
     * shapes, every cache the empty matrix.
     */
    constructor(inputDim: nat, units: nat, act: Activations.Kind, init: Initializers.Initializer)
      ensures Valid() && GradsFit()
      ensures inDim == inputDim && outDim == units && activation == act && initializer == init
      ensures weights == Initializers.Initialized(init, inputDim, units)
      ensures biases == Zeros(1, units) && weightsGrad == Zeros(inputDim, units) && biasesGrad == Zeros(1, units)
      ensures inputCache == zCache == aCache == dZ == Mat(0, 0, [])
      ensures inputTCache == weightsTCache == inputGradientsCache == Mat(0, 0, [])
    {
      inDim, outDim, activation, initializer := inputDim, units, act, init;
      var w := new Matrices.Matrix.Sized(inputDim, units);
      Initializers.Apply(init, w);
      var b := new Matrices.Matrix.Sized(1, units);
      Initializers.Apply(Initializers.Initializer(Initializers.Zeros, DefaultSeed), b);
      Initializers.ConstantStrategies(DefaultSeed, 1, units);
      weights, biases := w.Value(), b.Value();
      weightsGrad, biasesGrad := Zeros(inputDim, units), Zeros(1, units);
      inputCache, zCache, aCache, dZ := Mat(0, 0, []), Mat(0, 0, []), Mat(0, 0, []), Mat(0, 0, []);
      inputTCache, weightsTCache, inputGradientsCache := Mat(0, 0, []), Mat(0, 0, []), Mat(0, 0, []);
    }

    /**
     * `forward(input, is_training)`: the input is cached first when
     * training; `z_cache` is reallocated only when its shape is wrong, then
     * receives X * W (throwing on a width mismatch) and the broadcast biases;
     * the activation of it is returned and, when training, cached.
     */
    method Forward(x: Mat, training: bool) returns (r: Result<Mat>)
      requires Valid() && Wf(x)
      modifies this
      ensures Valid()
      ensures r == Output(weights, biases, activation, x)
      ensures weights == old(weights) && biases == old(biases)
      ensures weightsGrad == old(weightsGrad) && biasesGrad == old(biasesGrad)
      ensures inputCache == if training then x else old(inputCache)
      ensures aCache == if training && r.Ok? then r.value else old(aCache)
      ensures x.cols == inDim ==> zCache == PreActivation(weights, biases, x)
      ensures x.cols != inDim ==>
        zCache == if old(zCache).rows == x.rows && old(zCache).cols == outDim then old(zCache) else Zeros(x.rows, outDim)
      ensures dZ == old(dZ) && inputTCache == old(inputTCache)
      ensures weightsTCache == old(weightsTCache) && inputGradientsCache == old(inputGradientsCache)
      ensures training && r.Ok? ==> Primed()
    {
      if training {
        inputCache := x;
      }
      zCache, r := ForwardPass(activation, weights, biases, x, zCache);
      if training && r.Ok? {
        aCache := r.value;
      }
    }

    /**
     * `backward(outputGradients)`: dZ = act.backprop(A, g); then
     * dW = X^T * dZ, db = the column sums of dZ (into a zero-filled
     * buffer) and the returned dX = dZ * W^T. Each `dot` throws on a shape
     * mismatch, leaving what was written before it.
     */
    method Backward(g: Mat) returns (r: Result<Mat>)
      requires Valid() && Wf(g) && g.rows == aCache.rows && g.cols == aCache.cols
      modifies this
      ensures Valid()
      ensures weights == old(weights) && biases == old(biases)
      ensures inputCache == old(inputCache) && zCache == old(zCache) && aCache == old(aCache)
      ensures r.Err? <==>
        activation == Activations.LogSoftmax || inputCache.rows != aCache.rows || aCache.cols != outDim
      ensures activation != Activations.LogSoftmax ==> dZ == Activations.Backpropagated(activation, aCache, g)
      ensures r.Ok? ==> inputTCache == Transposed(inputCache) && weightsTCache == Transposed(weights)
      ensures r.Ok? ==> weightsGrad == Product(Transposed(inputCache), dZ)
      ensures r.Ok? ==> biasesGrad == ColumnSums(dZ)
      ensures r.Ok? ==> r.value == inputGradientsCache == Product(dZ, Transposed(weights))
      ensures r.Ok? && inputCache.cols == inDim ==> GradsFit()
    {
      var res;
      dZ, inputTCache, weightsTCache, weightsGrad, biasesGrad, inputGradientsCache, res :=
        BackwardPass(activation, weights, inputCache, aCache, g,
          dZ, inputTCache, weightsTCache, weightsGrad, biasesGrad, inputGradientsCache);
      r := res;
    }
  }

  /**
   * The steps of `backward` on the values of the layer's members: the
   * activation gradient dZ, then X^T and dW = X^T * dZ, then db into the
   * zero-filled bias gradient, then W^T, the input-gradient buffer resized
   * to dZ.rows x in when its shape is wrong, and dX = dZ * W^T. A step that
   * throws stops the pass with what the earlier steps wrote.
   */
  method BackwardPass(k: Activations.Kind, w: Mat, x: Mat, a: Mat, g: Mat,
                      dz0: Mat, xt0: Mat, wt0: Mat, wg0: Mat, bg0: Mat, dx0: Mat)
    returns (dz: Mat, xt: Mat, wt: Mat, wg: Mat, bg: Mat, dx: Mat, r: Result<Mat>)
    requires Wf(w) && Wf(x) && Wf(a) && Wf(g) && g.rows == a.rows && g.cols == a.cols
    requires Wf(dz0) && Wf(xt0) && Wf(wt0) && Wf(wg0) && Wf(dx0)
    requires Wf(bg0) && bg0.rows == 1 && bg0.cols == w.cols && a.cols <= w.cols
    ensures Wf(dz) && Wf(xt) && Wf(wt) && Wf(wg) && Wf(dx)
    ensures Wf(bg) && bg.rows == 1 && bg.cols == bg0.cols
    ensures r.Err? <==> k == Activations.LogSoftmax || x.rows != a.rows || a.cols != w.cols
    ensures k != Activations.LogSoftmax ==> dz == Activations.Backpropagated(k, a, g)
    ensures r.Ok? ==> xt == Transposed(x) && wt == Transposed(w)
    ensures r.Ok? ==> wg == Product(Transposed(x), dz)
    ensures r.Ok? ==> bg == ColumnSums(dz)
    ensures r.Ok? ==> r.value == dx == Product(dz, Transposed(w))
    ensures r.Ok? ==> wg.rows == x.cols && wg.cols == w.cols
  {
    var res;
    dz, res := Activations.Backprop(k, a, g, dz0);
    xt, wt, wg, bg, dx := xt0, wt0, wg0, bg0, dx0;
    if res.Err? {
      return dz, xt, wt, wg, bg, dx, Err(res.msg);
    }
    var ok;
    xt, wg, ok := WeightGradient(x, xt0, dz, wg0);
    if !ok {
      return dz, xt, wt, wg, bg, dx, Err("Dimension mismatch for dot product");
    }
    bg := BiasGradient(dz, bg0);
    if dx.rows != dz.rows || dx.cols != w.rows {
      dx := Zeros(dz.rows, w.rows);
    }
    wt, dx, ok := InputGradient(w, wt0, dz, dx);
    if !ok {
      return dz, xt, wt, wg, bg, dx, Err("Dimension mismatch for dot product");
    }
    r := Ok(dx);
  }

  /**
   * The steps of `forward` on values: `z_cache` reallocated to batch x out
   * only when its shape is wrong, X * W + b written into it unless the
   * widths disagree, then the activation applied to it.
   */
  method ForwardPass(k: Activations.Kind, w: Mat, b: Mat, x: Mat, z0: Mat) returns (z: Mat, r: Result<Mat>)
    requires Wf(w) && Wf(b) && Wf(x) && Wf(z0) && b.rows == 1 && b.cols == w.cols
    ensures Wf(z)
    ensures r == Output(w, b, k, x)
    ensures r.Ok? ==> Wf(r.value) && r.value.rows == x.rows && r.value.cols == w.cols
    ensures x.cols == w.rows ==> z == PreActivation(w, b, x)
    ensures x.cols != w.rows ==>
      z == if z0.rows == x.rows && z0.cols == w.cols then z0 else Zeros(x.rows, w.cols)
  {
    z := z0;
    if z.rows != x.rows || z.cols != w.cols {
      z := Zeros(x.rows, w.cols);
    }
    var ok;
    z, ok := ForwardProduct(x, w, b, z);
    if !ok {
      return z, Err("Dimension mismatch for dot product");
    }
    r := Activations.Apply(k, z);
  }

  /**
   * `input.dot(weights, z_cache); z_cache += biases;` on a z_cache of the
   * right shape: false when the widths disagree, leaving z_cache as it was.
   */
  method ForwardProduct(x: Mat, w: Mat, b: Mat, z0: Mat) returns (z: Mat, ok: bool)
    requires Wf(x) && Wf(w) && Wf(b) && Wf(z0) && b.rows == 1 && b.cols == w.cols
    requires z0.rows == x.rows && z0.cols == w.cols
    ensures ok <==> x.cols == w.rows
    ensures ok ==> z == PreActivation(w, b, x)
    ensures !ok ==> z == z0
  {
    var xm := new Matrices.Matrix.Copy(x);
    var wm := new Matrices.Matrix.Copy(w);
    var zm := new Matrices.Matrix.Copy(z0);
    var product := xm.DotInto(wm, zm);
    if product.Err? {
      return z0, false;
    }
    var bm := new Matrices.Matrix.Copy(b);
    var added := zm.AddAssign(bm);
    if x.rows == 1 {
      Matrices.AddedOneRow(Product(x, w), b);
    }
    return zm.Value(), true;
  }

  /**
   * `input_cache.transpose(input_T_cache); input_T_cache.dot(dZ, weights_grad);`:
   * the transposed input, and X^T * dZ unless the batch sizes disagree.
   */
  method WeightGradient(x: Mat, xt0: Mat, dz: Mat, wg0: Mat) returns (xt: Mat, wg: Mat, ok: bool)
    requires Wf(x) && Wf(xt0) && Wf(dz) && Wf(wg0)
    ensures xt == Transposed(x)
    ensures ok <==> x.rows == dz.rows
    ensures ok ==> wg == Product(Transposed(x), dz)
    ensures !ok ==> wg == wg0
  {
    var xm := new Matrices.Matrix.Copy(x);
    var xtm := new Matrices.Matrix.Copy(xt0);
    xm.TransposeInto(xtm);
    xt := xtm.Value();
    var dzm := new Matrices.Matrix.Copy(dz);
    var wgm := new Matrices.Matrix.Copy(wg0);
    var dw := xtm.DotInto(dzm, wgm);
    wg, ok := wgm.Value(), dw.Ok?;
  }

  /**
   * `biases_grad.fill(0.0f); dZ.sumRows(biases_grad);` on a one-row buffer at
   * least as wide as dZ: the column sums of dZ, zeros beyond them.
   */
  method BiasGradient(dz: Mat, bg0: Mat) returns (bg: Mat)
    requires Wf(dz) && Wf(bg0) && bg0.rows == 1 && dz.cols <= bg0.cols
    ensures bg == SumRowsInto(Zeros(1, bg0.cols), dz)
    ensures bg0.cols == dz.cols ==> bg == ColumnSums(dz)
  {
    var dzm := new Matrices.Matrix.Copy(dz);
    var bgm := new Matrices.Matrix.Copy(bg0);
    bgm.Fill(0.0);
    dzm.SumRows(bgm);
    SumRowsIntoZeroRow(dz);
    bg := bgm.Value();
  }

  /**
   * `weights.transpose(weights_T_cache)`, then dZ * W^T into the input
   * gradient buffer unless the widths disagree.
   */
  method InputGradient(w: Mat, wt0: Mat, dz: Mat, dx0: Mat) returns (wt: Mat, dx: Mat, ok: bool)
    requires Wf(w) && Wf(wt0) && Wf(dz) && Wf(dx0)
    ensures wt == Transposed(w)
    ensures ok <==> dz.cols == w.cols
    ensures ok ==> dx == Product(dz, Transposed(w))
    ensures !ok ==> dx == dx0
  {
    var wm := new Matrices.Matrix.Copy(w);
    var wtm := new Matrices.Matrix.Copy(wt0);
    wm.TransposeInto(wtm);
    wt := wtm.Value();
    var dzm := new Matrices.Matrix.Copy(dz);
    var dxm := new Matrices.Matrix.Copy(dx0);
    var back := dzm.DotInto(wtm, dxm);
    dx, ok := dxm.Value(), back.Ok?;
  }

  /** sum over the first n batch rows b of X(b, p) * dZ(b, f). */
  function ColumnDot(x: Mat, dz: Mat, p: int, f: int, n: int): real
    requires Wf(x) && Wf(dz) && x.rows == dz.rows
    requires 0 <= p < x.cols && 0 <= f < dz.cols && 0 <= n <= x.rows
  {
    if n == 0 then 0.0 else ColumnDot(x, dz, p, f, n - 1) + Get(x, n - 1, p) * Get(dz, n - 1, f)
  }

  /** Row p of X^T against column f of dZ is column p of X against column f of dZ. */
  lemma {:induction false} TransposedDot(x: Mat, t: Mat, dz: Mat, p: int, f: int, n: int)
    requires Wf(x) && Wf(dz) && x.rows == dz.rows && Wf(t) && t.rows == x.cols && t.cols == x.rows
    requires 0 <= p < x.cols && 0 <= f < dz.cols && 0 <= n <= x.rows
    requires forall b :: 0 <= b < x.rows ==> Get(t, p, b) == Get(x, b, p)
    ensures DotRange(t, dz, p, f, 0, n) == ColumnDot(x, dz, p, f, n)
  {
    if n > 0 {
      TransposedDot(x, t, dz, p, f, n - 1);
    }
  }

  /**
   * The gradients `backward` returns and stores, cell by cell, in terms of
   * the cached input X, the weights W and dZ:
   * dX(i, j) = sum_f dZ(i, f) W(j, f) and dW(p, f) = sum_b X(b, p) dZ(b, f).
   */
  lemma GradientsMean(x: Mat, w: Mat, dz: Mat)
    requires Wf(x) && Wf(w) && Wf(dz) && dz.cols == w.cols && dz.rows == x.rows
    ensures forall i, j :: 0 <= i < dz.rows && 0 <= j < w.rows ==>
      Get(Product(dz, Transposed(w)), i, j) == DotTRange(dz, w, i, j, 0, dz.cols)
    ensures forall p, f :: 0 <= p < x.cols && 0 <= f < dz.cols ==>
      Get(Product(Transposed(x), dz), p, f) == ColumnDot(x, dz, p, f, x.rows)
  {
    ProductTIsProduct(dz, w);
    forall p, f | 0 <= p < x.cols && 0 <= f < dz.cols
      ensures Get(Product(Transposed(x), dz), p, f) == ColumnDot(x, dz, p, f, x.rows)
    {
      TransposedDot(x, Transposed(x), dz, p, f, x.rows);
    }
  }
}
