// The layers of src/neuralnetwork/NeuralNetwork.cpp as the network sees
// them: the layer configurations a builder records, the shape each layer
// passes on to the next, the creation of one layer from its configuration
// and the shape before it, and `predict` on the layers' values (each
// layer's forward pass folded over the input). The network and builder
// classes themselves, with `build`, `train` and `clone`, are in module
// NeuralNetworks.
//
// The layers are polymorphic in the source (`std::unique_ptr<Layer>`); here
// a `Layer` value names one of the three layer objects and dispatches to it.
module Networks {
  import opened Common
  import opened MatrixSpec
  import Matrices
  import Activations
  import Initializers
  import Optimizers
  import Losses
  import Layers
  import DenseLayers
  import Convolutions
  import Conv2DLayers
  import Poolings

  // ------------------------------------------------------- configurations

  /** `LayerConfigVariant`: the configuration of a dense, convolution or pooling layer. */
  datatype LayerConfig =
    | DenseConfig(neurons: nat, act: Activations.Kind, init: Initializers.Initializer)
    | ConvConfig(filters: nat, kernelSize: nat, stride: nat, padding: nat,
                 init: Initializers.Initializer, act: Activations.Kind)
    | PoolConfig(kind: Poolings.PoolingType, poolSize: nat, stride: nat)

  /** A shape with no negative extent. */
  predicate Natural(s: Layers.Dims)
  {
    s.depth >= 0 && s.height >= 0 && s.width >= 0
  }

  /** The convolution a `Conv2DLayerConfig` describes on input shape s. */
  function ConvGeometry(c: LayerConfig, s: Layers.Dims): Convolutions.Geometry
    requires c.ConvConfig? && Natural(s)
  {
    Convolutions.Geometry(s.depth, s.height, s.width, c.filters, c.kernelSize, c.stride, c.padding)
  }

  /** The pooling a `Pooling2DLayerConfig` describes on input shape s. */
  function PoolGeometry(c: LayerConfig, s: Layers.Dims): Poolings.PoolGeometry
    requires c.PoolConfig? && Natural(s)
  {
    Poolings.PoolGeometry(s.depth, s.height, s.width, c.poolSize, c.stride)
  }

  /** The layer constructor for configuration c can run on input shape s. */
  predicate Fits(c: LayerConfig, s: Layers.Dims)
  {
    Natural(s) &&
    match c
    case DenseConfig(_, _, _) => true
    case ConvConfig(_, _, _, _, _, _) => ConvGeometry(c, s).Sound()
    case PoolConfig(_, _, _) => PoolGeometry(c, s).Sound()
  }

  /** The shape `LayerFactory::create` passes on: the new layer's `getOutputShape()`. */
  function NextShape(c: LayerConfig, s: Layers.Dims): (n: Layers.Dims)
    requires Fits(c, s)
    ensures Natural(n)
  {
    match c
    case DenseConfig(neurons, _, _) => Layers.Dims(1, 1, neurons)
    case ConvConfig(filters, _, _, _, _, _) =>
      var g := ConvGeometry(c, s);
      Layers.Dims(filters, g.OutHeight(), g.OutWidth())
    case PoolConfig(_, _, _) =>
      var g := PoolGeometry(c, s);
      Layers.Dims(s.depth, g.OutHeight(), g.OutWidth())
  }

  /** The shape `build` holds in `current_shape` before layer n, or None once a configuration does not fit. */
  function ShapeBefore(cs: seq<LayerConfig>, s: Layers.Dims, n: nat): (r: Option<Layers.Dims>)
    requires n <= |cs|
    ensures r.Some? ==> Natural(r.value)
  {
    if n == 0 then (if Natural(s) then Some(s) else None)
    else
      match ShapeBefore(cs, s, n - 1)
      case None => None
      case Some(p) => if Fits(cs[n - 1], p) then Some(NextShape(cs[n - 1], p)) else None
  }

  /** The input shape of layer n (the network's input shape where undefined). */
  function ShapeAt(cs: seq<LayerConfig>, s: Layers.Dims, n: nat): Layers.Dims
  {
    if n <= |cs| && ShapeBefore(cs, s, n).Some? then ShapeBefore(cs, s, n).value else s
  }

  /** Every configuration fits the shape its predecessors produce. */
  predicate Buildable(cs: seq<LayerConfig>, s: Layers.Dims)
  {
    ShapeBefore(cs, s, |cs|).Some?
  }

  /** A buildable list is buildable up to every layer, and each layer's configuration fits its input shape. */
  lemma {:induction false} BuildablePrefix(cs: seq<LayerConfig>, s: Layers.Dims, n: nat, m: nat)
    requires n <= m <= |cs| && ShapeBefore(cs, s, m).Some?
    ensures ShapeBefore(cs, s, n).Some? && ShapeAt(cs, s, n) == ShapeBefore(cs, s, n).value
    ensures n < m ==> Fits(cs[n], ShapeAt(cs, s, n)) && ShapeAt(cs, s, n + 1) == NextShape(cs[n], ShapeAt(cs, s, n))
    decreases m - n
  {
    if n < m {
      assert ShapeBefore(cs, s, m - 1).Some?;
      if n < m - 1 {
        BuildablePrefix(cs, s, n, m - 1);
        BuildablePrefix(cs, s, n + 1, m - 1);
      }
    }
  }

  // --------------------------------------------------------- layer states

  /** What a layer computes with: its kind, constants and parameters (its caches left out). */
  datatype LayerState =
    | DenseState(weights: Mat, biases: Mat, act: Activations.Kind)
    | ConvState(geometry: Convolutions.Geometry, kernels: Mat, biases: Mat, act: Activations.Kind)
    | PoolState(pooling: Poolings.PoolGeometry, kind: Poolings.PoolingType)
  {
    /** The shapes each layer keeps: a bias row per output column, kernels of fan-in rows, a sound geometry. */
    ghost predicate Sane()
    {
      match this
      case DenseState(w, b, _) => Wf(w) && Wf(b) && b.rows == 1 && b.cols == w.cols
      case ConvState(g, k, b, _) =>
        g.Sound() && Wf(k) && k.rows == g.FanIn() && Wf(b) && b.rows == 1 && b.cols == k.cols
      case PoolState(g, _) => g.Sound()
    }

    /** `getParameters()`: weights then biases, kernels then biases, or nothing. */
    function Params(): seq<Mat>
    {
      match this
      case DenseState(w, b, _) => [w, b]
      case ConvState(_, k, b, _) => [k, b]
      case PoolState(_, _) => []
    }

    /** The width of an input row the layer is sized for. */
    function InWidth(): nat
    {
      match this
      case DenseState(w, _, _) => w.rows
      case ConvState(g, _, _, _) => g.ImageSize()
      case PoolState(g, _) => g.ImageSize()
    }

    /** The width of an output row. */
    function OutWidth(): nat
      requires Sane()
    {
      match this
      case DenseState(w, _, _) => w.cols
      case ConvState(g, k, _, _) => k.cols * g.Pixels()
      case PoolState(g, _) => g.OutSize()
    }

    /** What `forward(x)` returns: one output row of OutWidth cells per input row. */
    function Output(x: Mat): (r: Result<Mat>)
      requires Sane() && Wf(x)
      ensures r.Ok? ==> Wf(r.value) && r.value.rows == x.rows && r.value.cols == OutWidth()
    {
      match this
      case DenseState(w, b, k) =>
        var r := DenseLayers.Output(w, b, k, x);
        DenseLayers.OutputMeans(w, b, k, x);
        r
      case ConvState(g, kern, b, k) => Conv2DLayers.Output(g, kern, b, k, x)
      case PoolState(g, t) => Poolings.PoolOutput(g, t, x)
    }
  }

  ghost predicate AllSane(sts: seq<LayerState>)
  {
    forall k :: 0 <= k < |sts| ==> sts[k].Sane()
  }

  /** The layers 0 .. n - 1 applied in order to x, stopping at the first that throws. */
  function Run(sts: seq<LayerState>, x: Mat, n: nat): (r: Result<Mat>)
    requires AllSane(sts) && Wf(x) && n <= |sts|
    ensures r.Ok? ==> Wf(r.value) && r.value.rows == x.rows
  {
    if n == 0 then Ok(x)
    else
      match Run(sts, x, n - 1)
      case Err(e) => Err(e)
      case Ok(y) => sts[n - 1].Output(y)
  }

  /** Once a layer throws, so does every longer run, with the same error. */
  lemma {:induction false} RunStaysFailed(sts: seq<LayerState>, x: Mat, n: nat, m: nat)
    requires AllSane(sts) && Wf(x) && n <= m <= |sts| && Run(sts, x, n).Err?
    ensures Run(sts, x, m) == Run(sts, x, n)
  {
    if n < m {
      RunStaysFailed(sts, x, n, m - 1);
    }
  }

  /** A run that gets through layer n - 1 produces rows of that layer's output width. */
  lemma RunWidth(sts: seq<LayerState>, x: Mat, n: nat)
    requires AllSane(sts) && Wf(x) && 0 < n <= |sts| && Run(sts, x, n).Ok?
    ensures Run(sts, x, n - 1).Ok?
    ensures Run(sts, x, n).value.cols == sts[n - 1].OutWidth()
  {
  }

  // --------------------------------------------------------------- layers

  /** A layer of the network: one of the three layer objects. */
  datatype Layer =
    | Dense(dense: DenseLayers.DenseLayer)
    | Conv(conv: Conv2DLayers.Conv2DLayer)
    | Pool(pool: Poolings.Pooling2DLayer)
  {
    function Obj(): object
    {
      match this
      case Dense(l) => l
      case Conv(l) => l
      case Pool(l) => l
    }

    ghost predicate Valid()
      reads Obj()
    {
      match this
      case Dense(l) => l.Valid()
      case Conv(l) => l.Valid()
      case Pool(l) => l.Valid()
    }

    /** The number of parameter matrices, fixed by the kind of layer. */
    function Count(): nat
    {
      match this
      case Dense(_) => 2
      case Conv(_) => 2
      case Pool(_) => 0
    }

    /** `getParameters()`, as values. */
    function Parameters(): (ps: seq<Mat>)
      reads Obj()
      ensures |ps| == Count()
    {
      match this
      case Dense(l) => [l.weights, l.biases]
      case Conv(l) => [l.kernels, l.biases]
      case Pool(l) => []
    }

    /** `getParameterGradients()`, in the same order. */
    function Gradients(): (gs: seq<Mat>)
      reads Obj()
      ensures |gs| == Count()
    {
      match this
      case Dense(l) => [l.weightsGrad, l.biasesGrad]
      case Conv(l) => [l.kernelsGrad, l.biasesGrad]
      case Pool(l) => []
    }

    function State(): (st: LayerState)
      requires Valid()
      reads Obj()
      ensures st.Sane() && st.Params() == Parameters()
    {
      match this
      case Dense(l) => DenseState(l.weights, l.biases, l.activation)
      case Conv(l) => ConvState(l.geometry, l.kernels, l.biases, l.activation)
      case Pool(l) => PoolState(l.geometry, l.kind)
    }

    /** The layer is the one `LayerFactory::create(c, s)` makes (its constants only). */
    predicate Matches(c: LayerConfig, s: Layers.Dims)
    {
      Natural(s) &&
      match this
      case Dense(l) =>
        c.DenseConfig? && l.inDim == s.depth * s.height * s.width && l.outDim == c.neurons &&
        l.activation == c.act && l.initializer == c.init
      case Conv(l) =>
        c.ConvConfig? && l.geometry == ConvGeometry(c, s) && l.activation == c.act && l.initializer == c.init
      case Pool(l) =>
        c.PoolConfig? && l.geometry == PoolGeometry(c, s) && l.kind == c.kind
    }

    /** `getOutputShape()`. */
    function OutputShape(): Layers.Dims
      requires Valid()
      reads Obj()
    {
      match this
      case Dense(l) => l.OutputShape()
      case Conv(l) => l.OutputShape()
      case Pool(l) => l.OutputShape()
    }

    /** Each gradient matrix has the shape of its parameter. */
    ghost predicate GradsFit()
      reads Obj()
    {
      Fitting(Parameters(), Gradients())
    }

    /**
     * The caches a training `forward` of x that returned y leaves, as far
     * as `backward` relies on them.
     */
    ghost predicate Primed(x: Mat, y: Mat)
      reads Obj()
    {
      y.rows == x.rows &&
      match this
      case Dense(l) => l.inputCache == x && l.aCache == y && x.cols == l.inDim
      case Conv(l) =>
        l.geometry.Sound() && l.inputCache == x && l.colCache.rows == l.aCache.rows &&
        l.colCache.cols == l.geometry.FanIn() && l.aCache.rows == x.rows * l.geometry.Pixels() &&
        l.aCache.cols == l.geometry.filters
      case Pool(l) =>
        l.geometry.Sound() &&
        (l.kind == Poolings.MaxPooling ==>
          |l.maxIndices| >= x.rows && forall b :: 0 <= b < x.rows ==> |l.maxIndices[b]| >= l.geometry.OutSize())
    }

    /** `layer->forward(x, is_training)`: the parameters stay, the output is the layer's function of x. */
    method Forward(x: Mat, training: bool) returns (r: Result<Mat>)
      requires Valid() && Wf(x)
      modifies Obj()
      ensures Valid() && State() == old(State()) && Gradients() == old(Gradients())
      ensures r == State().Output(x)
      ensures training && r.Ok? ==> Primed(x, r.value)
    {
      match this
      case Dense(l) =>
        r := l.Forward(x, training);
      case Conv(l) =>
        r := l.Forward(x, training);
      case Pool(l) =>
        r := l.Forward(x, training);
    }

    /**
     * `layer->backward(g)` after a training forward of x that returned y,
     * with g shaped like y: the parameters and caches stay, a gradient
     * comes back shaped like x's rows at the layer's input width, and the
     * parameter gradients then have the parameters' shapes.
     */
    method Backward(g: Mat, ghost x: Mat, ghost y: Mat) returns (r: Result<Mat>)
      requires Valid() && Wf(g) && Primed(x, y) && g.rows == y.rows && g.cols == y.cols
      modifies Obj()
      ensures Valid() && State() == old(State()) && Primed(x, y)
      ensures r.Ok? ==> Wf(r.value) && r.value.rows == x.rows && r.value.cols == State().InWidth()
      ensures r.Ok? ==> GradsFit()
    {
      match this
      case Dense(l) =>
        r := l.Backward(g);
      case Conv(l) =>
        r := l.Backward(g);
      case Pool(l) =>
        r := l.Backward(g);
    }

    /** `*dst_params[j] = src` for every j: the parameters are overwritten with equally shaped values. */
    method Store(ps: seq<Mat>)
      requires Valid() && Fitting(Parameters(), ps) && AllWf(ps)
      modifies Obj()
      ensures Valid() && Parameters() == ps && Gradients() == old(Gradients())
      ensures forall x, y :: old(Primed(x, y)) ==> Primed(x, y)
    {
      match this
      case Dense(l) =>
        l.weights, l.biases := ps[0], ps[1];
      case Conv(l) =>
        l.kernels, l.biases := ps[0], ps[1];
      case Pool(l) =>
    }
  }

  /** The parameters a fresh layer of configuration c on shape s starts with. */
  function InitialParams(c: LayerConfig, s: Layers.Dims): seq<Mat>
    requires Fits(c, s)
  {
    match c
    case DenseConfig(neurons, _, init) =>
      [Initializers.Initialized(init, s.depth * s.height * s.width, neurons), Zeros(1, neurons)]
    case ConvConfig(filters, _, _, _, init, _) =>
      [Initializers.Initialized(init, ConvGeometry(c, s).FanIn(), filters), Zeros(1, filters)]
    case PoolConfig(_, _, _) => []
  }

  /**
   * `LayerFactory::create(cfg, input_shape)`: a new layer of the
   * configuration's kind sized for the input shape (a dense layer takes its
   * flat size), and that layer's output shape.
   */
  method Create(c: LayerConfig, s: Layers.Dims) returns (l: Layer, next: Layers.Dims)
    requires Fits(c, s)
    ensures fresh(l.Obj()) && l.Valid() && l.Matches(c, s) && l.GradsFit()
    ensures l.Parameters() == InitialParams(c, s)
    ensures next == l.OutputShape() == NextShape(c, s)
  {
    match c {
      case DenseConfig(_, _, _) =>
        l := CreateDense(c, s);
      case ConvConfig(_, _, _, _, _, _) =>
        l := CreateConv(c, s);
      case PoolConfig(_, _, _) =>
        l := CreatePool(c, s);
    }
    next := l.OutputShape();
  }

  method CreateDense(c: LayerConfig, s: Layers.Dims) returns (l: Layer)
    requires c.DenseConfig? && Fits(c, s)
    ensures fresh(l.Obj()) && l.Valid() && l.Matches(c, s) && l.GradsFit()
    ensures l.Parameters() == InitialParams(c, s)
    ensures l.OutputShape() == NextShape(c, s)
  {
    NaturalFlat(s);
    var d := new DenseLayers.DenseLayer(s.depth * s.height * s.width, c.neurons, c.act, c.init);
    l := Dense(d);
  }

  method CreateConv(c: LayerConfig, s: Layers.Dims) returns (l: Layer)
    requires c.ConvConfig? && Fits(c, s)
    ensures fresh(l.Obj()) && l.Valid() && l.Matches(c, s) && l.GradsFit()
    ensures l.Parameters() == InitialParams(c, s)
    ensures l.OutputShape() == NextShape(c, s)
  {
    var g := ConvGeometry(c, s);
    var conv := new Conv2DLayers.Conv2DLayer(g, c.init, c.act);
    l := Conv(conv);
    assert l.OutputShape() == Layers.Dims(c.filters, g.OutHeight(), g.OutWidth());
  }

  method CreatePool(c: LayerConfig, s: Layers.Dims) returns (l: Layer)
    requires c.PoolConfig? && Fits(c, s)
    ensures fresh(l.Obj()) && l.Valid() && l.Matches(c, s) && l.GradsFit()
    ensures l.Parameters() == InitialParams(c, s)
    ensures l.OutputShape() == NextShape(c, s)
  {
    var g := PoolGeometry(c, s);
    var p := new Poolings.Pooling2DLayer(g, c.kind);
    l := Pool(p);
    assert l.OutputShape() == Layers.Dims(s.depth, g.OutHeight(), g.OutWidth());
  }

  lemma NaturalFlat(s: Layers.Dims)
    requires Natural(s)
    ensures s.depth * s.height * s.width >= 0
  {
    var dh := s.depth * s.height;
    assert dh >= 0;
    assert dh * s.width >= 0;
  }

  /**
   * A layer made for configuration c on shape s reads rows of s's flat
   * size and writes rows of the flat size of the shape it passes on, so
   * consecutive layers of a built network agree on the width between them.
   */
  lemma LayerWidths(l: Layer, c: LayerConfig, s: Layers.Dims)
    requires l.Valid() && l.Matches(c, s) && Fits(c, s)
    ensures l.State().InWidth() == s.Flat()
    ensures l.State().OutWidth() == NextShape(c, s).Flat()
  {
    match l
    case Dense(d) =>
      assert NextShape(c, s).Flat() == 1 * 1 * c.neurons;
    case Conv(cv) =>
      var g := ConvGeometry(c, s);
      Convolutions.Assoc(c.filters, g.OutHeight(), g.OutWidth());
    case Pool(p) =>
      var g := PoolGeometry(c, s);
      Convolutions.Assoc(s.depth, g.OutHeight(), g.OutWidth());
  }

  /** A layer made for configuration c on shape s has parameters of the shapes it started with. */
  lemma InitialShapes(l: Layer, c: LayerConfig, s: Layers.Dims)
    requires l.Valid() && l.Matches(c, s) && Fits(c, s)
    ensures Fitting(InitialParams(c, s), l.Parameters())
  {
  }
}
