// The convolution layer of src/neuralnetwork/Conv2DLayer.cpp. `forward`
// lowers the input to its im2col matrix, multiplies it by the kernels,
// broadcasts one bias per filter, activates, and reshapes the pixel-major
// result to one row per sample; `backward` undoes the reshape, takes the
// activation gradient, and forms the kernel, bias and input gradients, the
// last through col2im. The matrix members are values the two passes
// reassign.
module Conv2DLayers {
  import opened Common
  import opened MatrixSpec
  import Matrices
  import Activations
  import Initializers
  import Layers
  import DenseLayers
  import opened Convolutions

  /**
   * The pre-activation im2col(X) * K with the bias of filter f added to
   * column f: a dense layer's pre-activation with im2col(X) as its input.
   */
  function PreActivation(g: Geometry, kernels: Mat, biases: Mat, x: Mat): (z: Mat)
    requires g.Sound() && Wf(x) && Wf(kernels) && kernels.rows == g.FanIn()
    requires Wf(biases) && biases.rows == 1 && biases.cols == kernels.cols
    ensures Wf(z) && z.rows == x.rows * g.Pixels() && z.cols == kernels.cols
  {
    DenseLayers.PreActivation(kernels, biases, Im2Col(g, x))
  }

  /**
   * What `forward(X)` returns or throws, as a value: an input with a tap
   * inside the image at or past its width is refused; otherwise the
   * activation of the pre-activation, reshaped to batch x (filters * pixels).
   */
  function Output(g: Geometry, kernels: Mat, biases: Mat, k: Activations.Kind, x: Mat): (r: Result<Mat>)
    requires g.Sound() && Wf(x) && Wf(kernels) && kernels.rows == g.FanIn()
    requires Wf(biases) && biases.rows == 1 && biases.cols == kernels.cols
  {
    if !Im2ColRuns(g, x) then Err("Matrix indices out of bounds")
    else
      match Activations.Activated(k, PreActivation(g, kernels, biases, x))
      case Err(e) => Err(e)
      case Ok(a) => Ok(Samples(a, x.rows, g.Pixels()))
  }

  /**
   * The forward pass fails exactly on an input too narrow for a tap, an empty batch, an
   * empty output image, no filters or LOG_SOFTMAX; otherwise it is
   * batch x (filters * pixels), and reading it back in pixel-major order
   * gives the activations of the pre-activation.
   */
  lemma OutputMeans(g: Geometry, kernels: Mat, biases: Mat, k: Activations.Kind, x: Mat)
    requires g.Sound() && Wf(x) && Wf(kernels) && kernels.rows == g.FanIn()
    requires Wf(biases) && biases.rows == 1 && biases.cols == kernels.cols
    ensures Output(g, kernels, biases, k, x).Err? <==>
      !g.TapsWithin(x.cols) || x.rows == 0 || g.Pixels() == 0 || kernels.cols == 0 || k == Activations.LogSoftmax
    ensures Output(g, kernels, biases, k, x).Ok? ==>
      var o := Output(g, kernels, biases, k, x).value;
      Wf(o) && o.rows == x.rows && o.cols == kernels.cols * g.Pixels() &&
      PixelMajor(o, g.Pixels(), kernels.cols) == Activations.Activated(k, PreActivation(g, kernels, biases, x)).value
  {
    var z := PreActivation(g, kernels, biases, x);
    if Im2ColRuns(g, x) && Activations.Activated(k, z).Ok? {
      PixelMajorOfSamples(Activations.Activated(k, z).value, x.rows, g.Pixels());
    }
  }

  /**
   * For an element-wise activation, the output of pixel r (in pixel-major
   * order) and filter f is the activation of the dot product of im2col
   * row r with kernel column f, plus bias f.
   */
  lemma OutputCells(g: Geometry, kernels: Mat, biases: Mat, k: Activations.Kind, x: Mat)
    requires g.Sound() && Wf(x) && Wf(kernels) && kernels.rows == g.FanIn()
    requires Wf(biases) && biases.rows == 1 && biases.cols == kernels.cols
    requires Output(g, kernels, biases, k, x).Ok? && Activations.Elementwise(k)
    ensures
      var a := PixelMajor(Output(g, kernels, biases, k, x).value, g.Pixels(), kernels.cols);
      forall r, f :: 0 <= r < x.rows * g.Pixels() && 0 <= f < kernels.cols ==>
        Get(a, r, f) == Activations.Forward(k, DotRange(Im2Col(g, x), kernels, r, f, 0, g.FanIn()) + Get(biases, 0, f))
  {
    OutputMeans(g, kernels, biases, k, x);
    DenseLayers.OutputMeans(kernels, biases, k, Im2Col(g, x));
  }

  class Conv2DLayer {
    /** depth, input_height, input_width, filters, kernel_size, stride and padding. */
    const geometry: Geometry
    const activation: Activations.Kind
    const initializer: Initializers.Initializer

    var kernels: Mat
    var biases: Mat
    var kernelsGrad: Mat
    var biasesGrad: Mat

    var inputCache: Mat
    var colCache: Mat
    var zCache: Mat
    var aCache: Mat

    /**
     * The geometry is sound; the kernels are fan_in x filters, the biases
     * and their gradient 1 x filters; the activation cache is either unset
     * or filters columns wide.
     */
    ghost predicate Valid()
      reads this
    {
      geometry.Sound() &&
      Wf(kernels) && kernels.rows == geometry.FanIn() && kernels.cols == geometry.filters &&
      Wf(biases) && biases.rows == 1 && biases.cols == geometry.filters &&
      Wf(kernelsGrad) && Wf(biasesGrad) && biasesGrad.rows == 1 && biasesGrad.cols == geometry.filters &&
      Wf(inputCache) && Wf(colCache) && Wf(zCache) && Wf(aCache) &&
      (aCache == Mat(0, 0, []) || aCache.cols == geometry.filters)
    }

    /** `getParameters()`: the kernels, then the biases. */
    function Parameters(): seq<Mat>
      reads this
    {
      [kernels, biases]
    }

    /** `getParameterGradients()`: the kernel gradient, then the bias gradient. */
    function Gradients(): seq<Mat>
      reads this
    {
      [kernelsGrad, biasesGrad]
    }

    /** `getOutputShape()`: (filters, output_height, output_width), whose flat size is filters * pixels. */
    function OutputShape(): (d: Layers.Dims)
      requires geometry.Sound()
      reads this
      ensures d.depth == geometry.filters && d.Flat() == geometry.filters * geometry.Pixels()
    {
      var d := Layers.Dims(geometry.filters, geometry.OutHeight(), geometry.OutWidth());
      Assoc(geometry.filters, geometry.OutHeight(), geometry.OutWidth());
      d
    }

    /**
     * `Conv2DLayer(d, h, w, f, k, s, p, init, act)`: kernels of
     * fan_in x filters filled by the initializer, zero biases of 1 x filters,
     * zero gradients of the same shapes, every cache the empty matrix.
     */
    constructor(g: Geometry, init: Initializers.Initializer, act: Activations.Kind)
      requires g.Sound()
      ensures Valid()
      ensures geometry == g && activation == act && initializer == init
      ensures kernels == Initializers.Initialized(init, g.FanIn(), g.filters)
      ensures biases == Zeros(1, g.filters)
      ensures kernelsGrad == Zeros(g.FanIn(), g.filters) && biasesGrad == Zeros(1, g.filters)
      ensures inputCache == colCache == zCache == aCache == Mat(0, 0, [])
    {
      geometry, activation, initializer := g, act, init;
      var kern := new Matrices.Matrix.Sized(g.FanIn(), g.filters);
      Initializers.Apply(init, kern);
      var bias := new Matrices.Matrix.Sized(1, g.filters);
      Initializers.Apply(Initializers.Initializer(Initializers.Zeros, DenseLayers.DefaultSeed), bias);
      Initializers.ConstantStrategies(DenseLayers.DefaultSeed, 1, g.filters);
      kernels, biases := kern.Value(), bias.Value();
      kernelsGrad, biasesGrad := Zeros(g.FanIn(), g.filters), Zeros(1, g.filters);
      inputCache, colCache, zCache, aCache := Mat(0, 0, []), Mat(0, 0, []), Mat(0, 0, []), Mat(0, 0, []);
    }

    /**
     * `forward(input, is_training)`: the input is cached first when
     * training; then im2col (cached when training), the GEMM with the
     * kernels, the bias broadcast into `z_cache`, the activation (cached
     * when training) and the reshape to one row per sample.
     */
    method Forward(x: Mat, training: bool) returns (r: Result<Mat>)
      requires Valid() && Wf(x)
      modifies this
      ensures Valid()
      ensures r == Output(geometry, kernels, biases, activation, x)
      ensures kernels == old(kernels) && biases == old(biases)
      ensures kernelsGrad == old(kernelsGrad) && biasesGrad == old(biasesGrad)
      ensures inputCache == if training then x else old(inputCache)
      ensures colCache == if training && Im2ColRuns(geometry, x) then Im2Col(geometry, x) else old(colCache)
      ensures zCache == if Im2ColRuns(geometry, x) then PreActivation(geometry, kernels, biases, x) else old(zCache)
      ensures aCache == if training && r.Ok? then Activations.Activated(activation, zCache).value else old(aCache)
    {
      if training {
        inputCache := x;
      }
      if !Im2ColRuns(geometry, x) {
        return Err("Matrix indices out of bounds");
      }
      var cols := Im2ColLoop(geometry, x);
      if training {
        colCache := cols;
      }
      zCache := Convolve(cols, kernels, biases);
      var a := Activations.Apply(activation, zCache);
      if a.Err? {
        return Err(a.msg);
      }
      if training {
        aCache := a.value;
      }
      var out := ToSamples(a.value, x.rows, geometry.Pixels());
      r := Ok(out);
    }

    /**
     * `backward(outputGradients)`: the gradient is read back into
     * pixel-major order, dZ = act.backprop(A, g), then
     * dK = col_cache^T * dZ, db = the column sums of dZ, and the returned
     * dX = col2im(dZ * K^T) over the cached batch. A step that throws stops
     * the pass with what the earlier steps wrote.
     */
    method Backward(g: Mat) returns (r: Result<Mat>)
      requires Valid() && Wf(g) && g.rows * geometry.Pixels() == aCache.rows && aCache.cols == geometry.filters
      modifies this
      ensures Valid()
      ensures kernels == old(kernels) && biases == old(biases)
      ensures inputCache == old(inputCache) && colCache == old(colCache)
      ensures zCache == old(zCache) && aCache == old(aCache)
      ensures r.Err? <==> Fails(g)
      ensures GradientsWritten(g) ==>
        var dz := Activations.Backpropagated(activation, aCache, PixelMajor(g, geometry.Pixels(), geometry.filters));
        kernelsGrad == Product(Transposed(colCache), dz) && biasesGrad == ColumnSums(dz)
      ensures !GradientsWritten(g) ==> kernelsGrad == old(kernelsGrad) && biasesGrad == old(biasesGrad)
      ensures r.Ok? ==>
        var dz := Activations.Backpropagated(activation, aCache, PixelMajor(g, geometry.Pixels(), geometry.filters));
        r.value == Col2Im(geometry, Product(dz, Transposed(kernels)), inputCache.rows)
    {
      kernelsGrad, biasesGrad, r :=
        BackwardPass(geometry, activation, kernels, inputCache, colCache, aCache, g, kernelsGrad, biasesGrad);
    }

    /**
     * The reshape, the activation gradient and the kernel-gradient GEMM
     * all succeed: the gradient is wide enough, the activation is not
     * LOG_SOFTMAX and the cached im2col matrix has one row per output pixel.
     */
    ghost predicate GradientsWritten(g: Mat)
      requires Valid()
      reads this
    {
      !ReshapeFails(g, geometry.Pixels(), geometry.filters) && activation != Activations.LogSoftmax &&
      colCache.rows == aCache.rows
    }

    /** `backward` throws: a step before the kernel gradient fails, or col2im reads past dCol's rows. */
    ghost predicate Fails(g: Mat)
      requires Valid()
      reads this
    {
      !GradientsWritten(g) || inputCache.rows * geometry.Pixels() > aCache.rows
    }
  }

  /**
   * `cols.dot(kernels)`, then `apply` adding biases(0, c) to every cell of
   * column c: the pre-activation of the layer.
   */
  method Convolve(cols: Mat, kernels: Mat, biases: Mat) returns (z: Mat)
    requires Wf(cols) && Wf(kernels) && Wf(biases) && cols.cols == kernels.rows
    requires biases.rows == 1 && biases.cols == kernels.cols
    ensures z == RowBroadcastAdded(Product(cols, kernels), biases)
  {
    var cm := new Matrices.Matrix.Copy(cols);
    var km := new Matrices.Matrix.Copy(kernels);
    var product := cm.Dot(km);
    var zm := new Matrices.Matrix.Copy(product.value);
    zm.Apply((i: int, c: int, v: real) => if 0 <= c < biases.cols then v + Get(biases, 0, c) else v);
    z := zm.Value();
    Ext(z, RowBroadcastAdded(Product(cols, kernels), biases));
  }

  /**
   * The steps of `backward` on the values of the layer's members: the
   * reshape, the activation gradient dZ, the kernel gradient
   * col_cache^T * dZ, the bias gradient into the zero-filled buffer, then
   * dCol = dZ * K^T and col2im over the cached batch.
   */
  method BackwardPass(g: Geometry, k: Activations.Kind, kernels: Mat, x: Mat, cols: Mat, a: Mat, grad: Mat,
                      kg0: Mat, bg0: Mat)
    returns (kg: Mat, bg: Mat, r: Result<Mat>)
    requires g.Sound() && Wf(kernels) && kernels.rows == g.FanIn() && kernels.cols == g.filters
    requires Wf(x) && Wf(cols) && Wf(a) && Wf(grad) && grad.rows * g.Pixels() == a.rows && a.cols == g.filters
    requires Wf(kg0) && Wf(bg0) && bg0.rows == 1 && bg0.cols == g.filters
    ensures Wf(kg) && Wf(bg) && bg.rows == 1 && bg.cols == g.filters
    ensures r.Err? <==>
      ReshapeFails(grad, g.Pixels(), g.filters) || k == Activations.LogSoftmax || cols.rows != a.rows ||
      x.rows * g.Pixels() > a.rows
    ensures !ReshapeFails(grad, g.Pixels(), g.filters) && k != Activations.LogSoftmax && cols.rows == a.rows ==>
      var dz := Activations.Backpropagated(k, a, PixelMajor(grad, g.Pixels(), g.filters));
      kg == Product(Transposed(cols), dz) && bg == ColumnSums(dz)
    ensures ReshapeFails(grad, g.Pixels(), g.filters) || k == Activations.LogSoftmax || cols.rows != a.rows ==>
      kg == kg0 && bg == bg0
    ensures r.Ok? ==>
      var dz := Activations.Backpropagated(k, a, PixelMajor(grad, g.Pixels(), g.filters));
      r.value == Col2Im(g, Product(dz, Transposed(kernels)), x.rows)
  {
    kg, bg := kg0, bg0;
    var flat := FromSamples(grad, g.Pixels(), g.filters);
    if flat.Err? {
      return kg, bg, Err(flat.msg);
    }
    var dz, res := Activations.Backprop(k, a, flat.value, Mat(0, 0, []));
    if res.Err? {
      return kg, bg, Err(res.msg);
    }
    var cm := new Matrices.Matrix.Copy(cols);
    var colT := cm.Transpose();
    var ctm := new Matrices.Matrix.Copy(colT);
    var dzm := new Matrices.Matrix.Copy(dz);
    var kgm := new Matrices.Matrix.Copy(kg0);
    var dk := ctm.DotInto(dzm, kgm);
    if dk.Err? {
      return kg, bg, Err(dk.msg);
    }
    kg := kgm.Value();
    bg := DenseLayers.BiasGradient(dz, bg0);
    var km := new Matrices.Matrix.Copy(kernels);
    var kernelsT := km.Transpose();
    var ktm := new Matrices.Matrix.Copy(kernelsT);
    var dColR := dzm.Dot(ktm);
    var dCol := dColR.value;
    if x.rows * g.Pixels() > dCol.rows {
      return kg, bg, Err("Matrix indices out of bounds");
    }
    var dx := Col2ImLoop(g, dCol, x.rows);
    r := Ok(dx);
  }
}
