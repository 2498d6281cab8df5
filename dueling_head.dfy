// `DuelingHead` of src/rl/DQNAgent.cpp: a layer made of two dense streams
// over the same input, a value stream of one unit and an advantage stream of
// one unit per action. Its output is Q(i, j) = A(i, j) - mean_j A(i, .) +
// V(i, 0). The row means are accumulated cell by cell, row-major, each cell
// adding its value divided by the column count; the two subtractions and
// additions are element-wise maps. DQNAgent.cpp works on `talawa::core::Matrix`,
// whose header is not part of this model: its `map` is taken to apply the
// function to the receiver's own cells, and `reduceToCol` to give row sums.
module DuelingHeads {
  import opened Common
  import opened MatrixSpec
  import opened DenseLayers
  import Activations
  import Initializers
  import Layers

  // ------------------------------------------------------------- row sums

  /** Σ_{j < n} a(i, j). */
  function RowSum(a: Mat, i: int, n: int): real
    requires Wf(a) && 0 <= i < a.rows && 0 <= n <= a.cols
  {
    if n == 0 then 0.0 else RowSum(a, i, n - 1) + Get(a, i, n - 1)
  }

  /** What the accumulation of row i holds after n cells: Σ_{j < n} a(i, j) / cols. */
  function RowShare(a: Mat, i: int, n: int): real
    requires Wf(a) && 0 <= i < a.rows && 0 <= n <= a.cols
  {
    if n == 0 then 0.0 else RowShare(a, i, n - 1) + Get(a, i, n - 1) / a.cols as real
  }

  lemma DivAdd(s: real, x: real, c: real)
    requires c != 0.0
    ensures s / c + x / c == (s + x) / c
  {}

  /** Adding each cell's share of the row gives the row's mean. */
  lemma {:induction false} RowShareIsMean(a: Mat, i: int, n: int)
    requires Wf(a) && 0 <= i < a.rows && 0 <= n <= a.cols && a.cols > 0
    ensures RowShare(a, i, n) == RowSum(a, i, n) / a.cols as real
  {
    if n > 0 {
      RowShareIsMean(a, i, n - 1);
      DivAdd(RowSum(a, i, n - 1), Get(a, i, n - 1), a.cols as real);
    }
  }

  /** A row whose every cell is shifted by d sums to the old sum plus n·d. */
  lemma {:induction false} RowSumShifted(q: Mat, a: Mat, i: int, n: int, d: real)
    requires Wf(q) && Wf(a) && q.rows == a.rows && q.cols == a.cols && 0 <= i < a.rows && 0 <= n <= a.cols
    requires forall j :: 0 <= j < a.cols ==> Get(q, i, j) == Get(a, i, j) + d
    ensures RowSum(q, i, n) == RowSum(a, i, n) + n as real * d
  {
    if n > 0 {
      RowSumShifted(q, a, i, n - 1, d);
    }
  }

  /** The column of row means the accumulation produces: row i holds its share sum. */
  function RowMeans(a: Mat): (m: Mat)
    requires Wf(a)
    ensures Wf(m) && m.rows == a.rows && m.cols == 1
  {
    Tabulate(a.rows, 1, (i, j) => if 0 <= i < a.rows then RowShare(a, i, a.cols) else 0.0)
  }

  /** The column of row sums `reduceToCol` produces. */
  function RowSums(g: Mat): (s: Mat)
    requires Wf(g)
    ensures Wf(s) && s.rows == g.rows && s.cols == 1
    ensures forall i :: 0 <= i < g.rows ==> Get(s, i, 0) == RowSum(g, i, g.cols)
  {
    Tabulate(g.rows, 1, (i, j) => if 0 <= i < g.rows then RowSum(g, i, g.cols) else 0.0)
  }

  /**
   * The `forEach` that accumulates the row means: a zero column, then for
   * every cell in row-major order its value over the column count added to
   * its row's entry.
   */
  method AccumulateMeans(a: Mat) returns (m: Mat)
    requires Wf(a)
    ensures m == RowMeans(a)
    ensures a.cols > 0 ==> forall i :: 0 <= i < a.rows ==> Get(m, i, 0) == RowSum(a, i, a.cols) / a.cols as real
  {
    m := Zeros(a.rows, 1);
    var i := 0;
    while i < a.rows
      invariant 0 <= i <= a.rows && Wf(m) && m.rows == a.rows && m.cols == 1
      invariant forall k :: 0 <= k < i ==> Get(m, k, 0) == RowShare(a, k, a.cols)
      invariant forall k :: i <= k < a.rows ==> Get(m, k, 0) == 0.0
    {
      var j := 0;
      while j < a.cols
        invariant 0 <= j <= a.cols && Wf(m) && m.rows == a.rows && m.cols == 1
        invariant forall k :: 0 <= k < i ==> Get(m, k, 0) == RowShare(a, k, a.cols)
        invariant Get(m, i, 0) == RowShare(a, i, j)
        invariant forall k :: i < k < a.rows ==> Get(m, k, 0) == 0.0
      {
        m := Set(m, i, 0, Get(m, i, 0) + Get(a, i, j) / a.cols as real);
        j := j + 1;
      }
      i := i + 1;
    }
    Ext(m, RowMeans(a));
    if a.cols > 0 {
      forall i | 0 <= i < a.rows ensures Get(m, i, 0) == RowSum(a, i, a.cols) / a.cols as real {
        RowShareIsMean(a, i, a.cols);
      }
    }
  }

  // ------------------------------------------------------------ the head

  /** The advantage map: each cell less its row's entry of the mean column m. */
  function Centered(a: Mat, m: Mat): (c: Mat)
    requires Wf(a) && Wf(m) && m.rows == a.rows && m.cols == 1
    ensures Wf(c) && c.rows == a.rows && c.cols == a.cols
    ensures forall i, j :: 0 <= i < a.rows && 0 <= j < a.cols ==> Get(c, i, j) == Get(a, i, j) - Get(m, i, 0)
  {
    Applied(a, (i, j, x) => x - (if 0 <= i < m.rows then Get(m, i, 0) else 0.0))
  }

  /** The value map: each cell plus its row's value V(i, 0). */
  function PlusValue(c: Mat, v: Mat): (q: Mat)
    requires Wf(c) && Wf(v) && v.rows == c.rows && v.cols >= 1
    ensures Wf(q) && q.rows == c.rows && q.cols == c.cols
    ensures forall i, j :: 0 <= i < c.rows && 0 <= j < c.cols ==> Get(q, i, j) == Get(c, i, j) + Get(v, i, 0)
  {
    Applied(c, (i, j, x) => x + (if 0 <= i < v.rows then Get(v, i, 0) else 0.0))
  }

  /** Q from the value and advantage outputs. */
  function Dueled(v: Mat, a: Mat): (q: Mat)
    requires Wf(v) && Wf(a) && v.rows == a.rows && v.cols >= 1
    ensures Wf(q) && q.rows == a.rows && q.cols == a.cols
  {
    PlusValue(Centered(a, RowMeans(a)), v)
  }

  /** Q(i, j) is A(i, j) less the mean of A's row i plus V(i, 0). */
  lemma DueledCells(v: Mat, a: Mat)
    requires Wf(v) && Wf(a) && v.rows == a.rows && v.cols >= 1 && a.cols > 0
    ensures forall i, j :: 0 <= i < a.rows && 0 <= j < a.cols ==>
      Get(Dueled(v, a), i, j) == Get(a, i, j) - RowSum(a, i, a.cols) / a.cols as real + Get(v, i, 0)
  {
    forall i | 0 <= i < a.rows ensures Get(RowMeans(a), i, 0) == RowSum(a, i, a.cols) / a.cols as real {
      RowShareIsMean(a, i, a.cols);
    }
  }

  /** t / c == v when t == s + c·d and d == v - s/c, for a positive c. */
  lemma MeanFromShift(t: real, s: real, c: real, v: real, d: real)
    requires c > 0.0 && d == v - s / c && t == s + c * d
    ensures t / c == v
  {
    assert c * (s / c) == s;
    assert c * d == c * v - s;
    assert t == c * v;
  }

  /** A row shifted by v0 less the row's mean averages to v0. */
  lemma ShiftedRowMean(q: Mat, a: Mat, i: int, v0: real)
    requires Wf(q) && Wf(a) && q.rows == a.rows && q.cols == a.cols && a.cols > 0 && 0 <= i < a.rows
    requires forall j :: 0 <= j < a.cols ==> Get(q, i, j) == Get(a, i, j) - RowSum(a, i, a.cols) / a.cols as real + v0
    ensures RowSum(q, i, a.cols) / a.cols as real == v0
  {
    var c := a.cols as real;
    var s := RowSum(a, i, a.cols);
    var d := v0 - s / c;
    RowSumShifted(q, a, i, a.cols, d);
    MeanFromShift(RowSum(q, i, a.cols), s, c, v0, d);
  }

  /** Each row of Q averages to that row's value V(i, 0). */
  lemma DueledRowMean(v: Mat, a: Mat, i: int)
    requires Wf(v) && Wf(a) && v.rows == a.rows && v.cols >= 1 && a.cols > 0 && 0 <= i < a.rows
    ensures RowSum(Dueled(v, a), i, a.cols) / a.cols as real == Get(v, i, 0)
  {
    DueledCells(v, a);
    ShiftedRowMean(Dueled(v, a), a, i, Get(v, i, 0));
  }

  /** Each row of g less its row mean sums to 0: the advantage stream's gradient has no row-wise drift. */
  lemma CenteredRowSum(g: Mat, i: int)
    requires Wf(g) && g.cols > 0 && 0 <= i < g.rows
    ensures RowSum(Centered(g, RowMeans(g)), i, g.cols) == 0.0
  {
    RowShareIsMean(g, i, g.cols);
    ShiftedRowMean(Centered(g, RowMeans(g)), g, i, 0.0);
    ZeroOver(RowSum(Centered(g, RowMeans(g)), i, g.cols), g.cols as real);
  }

  lemma ZeroOver(t: real, c: real)
    requires c > 0.0 && t / c == 0.0
    ensures t == 0.0
  {
    assert t == (t / c) * c;
  }

  /**
   * What `forward` returns from the two streams' results: the value
   * stream's error first, then the advantage stream's; with both outputs,
   * Q. Reading V(i, 0) throws when the value output has no column.
   */
  function HeadOutput(v: Result<Mat>, a: Result<Mat>): Result<Mat>
    requires v.Ok? ==> Wf(v.value)
    requires a.Ok? ==> Wf(a.value)
  {
    if v.Err? then Err(v.msg)
    else if a.Err? then Err(a.msg)
    else if v.value.rows != a.value.rows || v.value.cols == 0 then Err("Matrix indices out of bounds")
    else Ok(Dueled(v.value, a.value))
  }

  /** The conditions under which a dense layer's `backward` throws. */
  ghost predicate Fails(l: DenseLayer)
    reads l
  {
    l.activation == Activations.LogSoftmax || l.inputCache.rows != l.aCache.rows || l.aCache.cols != l.outDim
  }

  class DuelingHead {
    const value: DenseLayer
    const advantage: DenseLayer

    ghost predicate Valid()
      reads this, value, advantage
    {
      value != advantage && value.Valid() && advantage.Valid()
    }

    /** `getParameters()`: the value stream's, then the advantage stream's. */
    function Parameters(): seq<Mat>
      reads this, value, advantage
    {
      value.Parameters() + advantage.Parameters()
    }

    /** `getParameterGradients()`, in the same order. */
    function Gradients(): seq<Mat>
      reads this, value, advantage
    {
      value.Gradients() + advantage.Gradients()
    }

    /** With each stream's gradients shaped like its parameters, gradient k is shaped like parameter k. */
    lemma GradientsFit()
      requires Valid() && value.GradsFit() && advantage.GradsFit()
      ensures Fitting(Parameters(), Gradients())
      ensures |Parameters()| == 4 && Parameters()[..2] == value.Parameters() && Parameters()[2..] == advantage.Parameters()
    {
    }

    /** `getOutputShape()`: the advantage stream's shape, or an error unless the value stream yields one value. */
    function OutputShape(): (r: Result<Layers.Dims>)
      reads this, value, advantage
      ensures r.Ok? <==> value.outDim == 1
      ensures r.Ok? ==> r.value.Flat() == advantage.outDim
    {
      if value.OutputShape().Flat() != 1 then
        Err("[DuelingHead::getOutputShape] ERROR: Value stream output shape invalid.")
      else Ok(advantage.OutputShape())
    }

    /** `DuelingHead(input_dim, num_actions, act, init)`: a one-unit value stream and a num_actions advantage stream. */
    constructor(inputDim: nat, numActions: nat, act: Activations.Kind, init: Initializers.Initializer)
      ensures Valid() && fresh(value) && fresh(advantage)
      ensures value.inDim == inputDim && advantage.inDim == inputDim
      ensures value.activation == act && advantage.activation == act
      ensures OutputShape() == Ok(Layers.Dims(1, 1, numActions))
    {
      value := new DenseLayer(inputDim, 1, act, init);
      advantage := new DenseLayer(inputDim, numActions, act, init);
    }

    /**
     * `forward(input, is_training)`: the value stream, then the advantage
     * stream, on the same input; then the row means of A and Q = A - mean
     * + V. The streams' parameters are unchanged.
     */
    method Forward(x: Mat, training: bool) returns (r: Result<Mat>)
      requires Valid() && Wf(x)
      modifies value, advantage
      ensures Valid() && Parameters() == old(Parameters())
      ensures r == HeadOutput(Output(old(value.weights), old(value.biases), value.activation, x),
                              Output(old(advantage.weights), old(advantage.biases), advantage.activation, x))
    {
      var v := value.Forward(x, training);
      if v.Err? {
        return Err(v.msg);
      }
      var a := advantage.Forward(x, training);
      if a.Err? {
        return Err(a.msg);
      }
      OutputMeans(value.weights, value.biases, value.activation, x);
      OutputMeans(advantage.weights, advantage.biases, advantage.activation, x);
      var m := AccumulateMeans(a.value);
      r := Ok(PlusValue(Centered(a.value, m), v.value));
    }

    /**
     * `backward(g)`: the value stream receives the row sums of g, the
     * advantage stream g less its row means, and the result is the sum of
     * the two input gradients. A stream that throws stops the pass.
     */
    method Backward(g: Mat) returns (r: Result<Mat>)
      requires Valid() && Wf(g)
      requires value.aCache.rows == g.rows && value.aCache.cols == 1
      requires advantage.aCache.rows == g.rows && advantage.aCache.cols == g.cols
      modifies value, advantage
      ensures Valid() && Parameters() == old(Parameters())
      ensures value.aCache == old(value.aCache) && advantage.aCache == old(advantage.aCache)
      ensures r.Err? <==> old(Fails(value)) || old(Fails(advantage)) || value.inDim != advantage.inDim
      ensures !old(Fails(value)) ==> value.dZ == Activations.Backpropagated(value.activation, value.aCache, RowSums(g))
      ensures !old(Fails(value)) && !old(Fails(advantage)) ==>
        advantage.dZ == Activations.Backpropagated(advantage.activation, advantage.aCache, Centered(g, RowMeans(g)))
      ensures r.Ok? ==>
        value.inputGradientsCache.rows == advantage.inputGradientsCache.rows &&
        value.inputGradientsCache.cols == advantage.inputGradientsCache.cols &&
        r.value == Added(value.inputGradientsCache, advantage.inputGradientsCache)
    {
      var dv := RowSums(g);
      var m := AccumulateMeans(g);
      var da := Centered(g, m);
      var xv := value.Backward(dv);
      if xv.Err? {
        return Err(xv.msg);
      }
      var xa := advantage.Backward(da);
      if xa.Err? {
        return Err(xa.msg);
      }
      if xv.value.rows != xa.value.rows || xv.value.cols != xa.value.cols {
        return Err("Matrix shapes differ in addition");
      }
      r := Ok(Added(xv.value, xa.value));
    }
  }
}
