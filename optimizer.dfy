// The optimizers of src/core/Optimizer.cpp. Both walk the parallel lists of
// parameter and gradient matrices and overwrite every parameter cell in
// place; Adam also keeps per-parameter first and second moment caches and a
// time step. The AVX main loop and the scalar clean-up loop compute the same
// per-cell formula, so each matrix is updated by one sequential loop here.
module Optimizers {
  import opened Common
  import opened MatrixSpec
  import Matrices

  // ------------------------------------------------------- shared framing

  /** No matrix occurs twice in the parameter list, and none is also a gradient. */
  predicate Separate(params: seq<Matrices.Matrix>, grads: seq<Matrices.Matrix>)
  {
    (forall i, j :: 0 <= i < j < |params| ==> params[i] != params[j]) &&
    (forall i, j :: 0 <= i < |params| && 0 <= j < |grads| ==> params[i] != grads[j])
  }

  ghost predicate AllValid(ms: seq<Matrices.Matrix>)
    reads ms
  {
    forall i :: 0 <= i < |ms| ==> ms[i].Valid()
  }

  /** Every gradient has at least as many cells as its parameter (the loops read G[j] for j < size). */
  ghost predicate GradsCover(params: seq<Matrices.Matrix>, grads: seq<Matrices.Matrix>)
    reads params, grads
  {
    |params| == |grads| ==> forall i :: 0 <= i < |params| ==> |params[i].data| <= |grads[i].data|
  }

  /** The gradient clip shared by both optimizers: std::clamp(g, -1, 1). */
  function Clipped(g: real): (c: real)
    ensures -1.0 <= c <= 1.0
    ensures -1.0 <= g <= 1.0 ==> c == g
  {
    Clamp(g, -1.0, 1.0)
  }

  // ------------------------------------------------------------------ SGD

  /** One SGD cell: p - lr * clamp(g, -1, 1). */
  function SgdCell(p: real, g: real, lr: real): real
  {
    p - lr * Clipped(g)
  }

  /** A parameter buffer after one SGD step. */
  function SgdData(p: seq<real>, g: seq<real>, lr: real): (q: seq<real>)
    requires |p| <= |g|
    ensures |q| == |p|
  {
    seq(|p|, k requires 0 <= k < |p| => SgdCell(p[k], g[k], lr))
  }

  lemma ClippedStep(lr: real, c: real)
    requires -1.0 <= c <= 1.0
    ensures AbsR(lr * c) <= AbsR(lr)
  {
    if lr >= 0.0 {
      if c >= 0.0 { assert lr * c <= lr * 1.0; } else { assert lr * c >= lr * -1.0; }
    } else {
      if c >= 0.0 { assert lr * c >= lr * 1.0; } else { assert lr * c <= lr * -1.0; }
    }
  }

  /** No SGD step moves a parameter by more than |lr|. */
  lemma SgdMovesAtMostLr(p: seq<real>, g: seq<real>, lr: real)
    requires |p| <= |g|
    ensures forall k :: 0 <= k < |p| ==> AbsR(SgdData(p, g, lr)[k] - p[k]) <= AbsR(lr)
  {
    forall k | 0 <= k < |p| ensures AbsR(SgdData(p, g, lr)[k] - p[k]) <= AbsR(lr) {
      ClippedStep(lr, Clipped(g[k]));
    }
  }

  /** With lr >= 0 a positive gradient never raises a parameter and a negative one never lowers it. */
  lemma SgdDescends(p: seq<real>, g: seq<real>, lr: real, k: int)
    requires |p| <= |g| && 0 <= k < |p| && lr >= 0.0
    ensures g[k] >= 0.0 ==> SgdData(p, g, lr)[k] <= p[k]
    ensures g[k] <= 0.0 ==> SgdData(p, g, lr)[k] >= p[k]
  {
    var c := Clipped(g[k]);
    if g[k] >= 0.0 { assert c >= 0.0; assert lr * c >= 0.0; }
    if g[k] <= 0.0 { assert c <= 0.0; assert lr * c <= 0.0; }
  }

  /** One parameter matrix: W = W - lr * clamp(dW, -1, 1) over all rows*cols cells. */
  method SgdMatrix(p: Matrices.Matrix, g: Matrices.Matrix, lr: real)
    requires p.Valid() && g.Valid() && p != g && |p.data| <= |g.data|
    modifies p
    ensures p.Valid() && p.rows == old(p.rows) && p.cols == old(p.cols)
    ensures p.data == SgdData(old(p.data), g.data, lr)
  {
    var size := p.rows * p.cols;
    var j := 0;
    while j < size
      invariant 0 <= j <= size && p.rows * p.cols == size && |p.data| == size
      invariant p.rows == old(p.rows) && p.cols == old(p.cols)
      invariant forall k :: 0 <= k < size ==> p.data[k] == if k < j then SgdCell(old(p.data)[k], g.data[k], lr) else old(p.data)[k]
    {
      p.data := p.data[j := p.data[j] - lr * Clipped(g.data[j])];
      j := j + 1;
    }
  }

  /** The parameter loop shared by SGD: matrix i is stepped with gradient i. */
  method SgdAll(params: seq<Matrices.Matrix>, grads: seq<Matrices.Matrix>, lr: real)
    requires |params| == |grads| && Separate(params, grads) && AllValid(params) && AllValid(grads)
    requires GradsCover(params, grads)
    modifies params
    ensures AllValid(params)
    ensures forall i :: 0 <= i < |params| ==>
      params[i].rows == old(params[i].rows) && params[i].cols == old(params[i].cols) &&
      params[i].data == SgdData(old(params[i].data), grads[i].data, lr)
  {
    var i := 0;
    while i < |params|
      invariant 0 <= i <= |params| && AllValid(params) && AllValid(grads)
      invariant forall k :: 0 <= k < |params| ==> |params[k].data| <= |grads[k].data|
      invariant forall k :: 0 <= k < |params| ==>
        params[k].rows == old(params[k].rows) && params[k].cols == old(params[k].cols)
      invariant forall k :: 0 <= k < |params| ==>
        params[k].data == if k < i then SgdData(old(params[k].data), grads[k].data, lr) else old(params[k].data)
    {
      SgdMatrix(params[i], grads[i], lr);
      i := i + 1;
    }
  }

  class SGD {
    var learningRate: real

    constructor(lr: real)
      ensures learningRate == lr
    {
      learningRate := lr;
    }

    /** `SGD::update`: throws before touching anything when the lists differ in length. */
    method Update(params: seq<Matrices.Matrix>, grads: seq<Matrices.Matrix>) returns (r: Result<()>)
      requires Separate(params, grads) && AllValid(params) && AllValid(grads) && GradsCover(params, grads)
      modifies params
      ensures AllValid(params)
      ensures r.Err? <==> |params| != |grads|
      ensures r.Err? ==> forall i :: 0 <= i < |params| ==> params[i].Value() == old(params[i].Value())
      ensures r.Ok? ==> forall i :: 0 <= i < |params| ==>
        params[i].rows == old(params[i].rows) && params[i].cols == old(params[i].cols) &&
        params[i].data == SgdData(old(params[i].data), grads[i].data, learningRate)
    {
      if |params| != |grads| {
        return Err("Optimizer Mismatch: Parameter count does not match Gradient count");
      }
      SgdAll(params, grads, learningRate);
      r := Ok(());
    }
  }

  // ----------------------------------------------------------------- Adam

  /** m <- beta1 * m + (1 - beta1) * g for the clipped gradient g. */
  function FirstMoment(m: real, g: real, beta1: real): real
  {
    beta1 * m + (1.0 - beta1) * Clipped(g)
  }

  /** v <- beta2 * v + (1 - beta2) * g * g for the clipped gradient g. */
  function SecondMoment(v: real, g: real, beta2: real): real
  {
    var c := Clipped(g);
    beta2 * v + (1.0 - beta2) * c * c
  }

  /** The bias correction 1 / (1 - beta^t), at least 1 for t >= 1. */
  function Correction(beta: real, t: nat): (c: real)
    requires 0.0 <= beta < 1.0 && t >= 1
    ensures c >= 1.0
  {
    PowBelowOne(beta, t);
    var d := 1.0 - Pow(beta, t);
    assert 0.0 < d <= 1.0;
    assert 1.0 / d >= 1.0 by { assert (1.0 / d) * d == 1.0; }
    1.0 / d
  }

  /** theta - lr * m_hat / (sqrt(v_hat) + eps) with m_hat = m * cm and v_hat = v * cv. */
  function AdamCell(p: real, m: real, v: real, lr: real, cm: real, cv: real, eps: real): real
    requires v >= 0.0 && cv > 0.0 && eps > 0.0
  {
    p - lr * (m * cm) / (Sqrt(v * cv) + eps)
  }

  predicate MomentBounded(m: seq<real>)
  {
    forall k :: 0 <= k < |m| ==> -1.0 <= m[k] <= 1.0
  }

  predicate NonNegative(v: seq<real>)
  {
    forall k :: 0 <= k < |v| ==> v[k] >= 0.0
  }

  /** w = b * x + (1 - b) * y lies between y and x. */
  lemma MixBetween(b: real, x: real, y: real, w: real)
    requires 0.0 <= b <= 1.0 && y <= x && w == b * x + y - b * y
    ensures y <= w && w <= x
  {
    var d := x - y;
    assert b * d >= 0.0;
    assert b * d <= d;
    assert w == y + b * d;
  }

  /** w = b * x + (1 - b) * y lies in [-1, 1] when x and y do. */
  lemma MixBounds(b: real, x: real, y: real, w: real)
    requires 0.0 <= b <= 1.0 && -1.0 <= x <= 1.0 && -1.0 <= y <= 1.0 && w == b * x + y - b * y
    ensures -1.0 <= w && w <= 1.0
  {
    if x >= y {
      MixBetween(b, x, y, w);
    } else {
      var u := b * y + x - b * x;
      MixBetween(b, y, x, u);
      assert w == x + y - u;
    }
  }

  /** The first moment stays in [-1, 1] when it starts there. */
  lemma FirstMomentBounded(m: real, g: real, beta1: real)
    requires -1.0 <= m <= 1.0 && 0.0 <= beta1 <= 1.0
    ensures -1.0 <= FirstMoment(m, g, beta1) <= 1.0
  {
    var c := Clipped(g);
    var w := FirstMoment(m, g, beta1);
    assert w == beta1 * m + c - beta1 * c;
    MixBounds(beta1, m, c, w);
  }

  /** The second moment never goes negative. */
  lemma SecondMomentNonNegative(v: real, g: real, beta2: real)
    requires v >= 0.0 && 0.0 <= beta2 <= 1.0
    ensures SecondMoment(v, g, beta2) >= 0.0
  {
    var c := Clipped(g);
    assert beta2 * v >= 0.0;
    assert c * c >= 0.0;
    assert (1.0 - beta2) * c * c >= 0.0 by { assert (1.0 - beta2) * (c * c) >= 0.0; }
  }

  /** The moment buffers after one step. */
  function FirstMoments(m: seq<real>, g: seq<real>, beta1: real): (q: seq<real>)
    requires |m| <= |g|
    ensures |q| == |m|
  {
    seq(|m|, k requires 0 <= k < |m| => FirstMoment(m[k], g[k], beta1))
  }

  function SecondMoments(v: seq<real>, g: seq<real>, beta2: real): (q: seq<real>)
    requires |v| <= |g|
    ensures |q| == |v|
  {
    seq(|v|, k requires 0 <= k < |v| => SecondMoment(v[k], g[k], beta2))
  }

  /** The parameter buffer after one step, from the already updated moments. */
  function AdamData(p: seq<real>, m: seq<real>, v: seq<real>, lr: real, cm: real, cv: real, eps: real): (q: seq<real>)
    requires |p| == |m| == |v| && NonNegative(v) && cv > 0.0 && eps > 0.0
    ensures |q| == |p|
  {
    seq(|p|, k requires 0 <= k < |p| => AdamCell(p[k], m[k], v[k], lr, cm, cv, eps))
  }

  /** Starting from bounded moments, the first moments stay in [-1, 1]. */
  lemma FirstMomentsBounded(m: seq<real>, g: seq<real>, beta1: real)
    requires |m| <= |g| && MomentBounded(m) && 0.0 <= beta1 <= 1.0
    ensures MomentBounded(FirstMoments(m, g, beta1))
  {
    forall k | 0 <= k < |m| ensures -1.0 <= FirstMoments(m, g, beta1)[k] <= 1.0 {
      FirstMomentBounded(m[k], g[k], beta1);
    }
  }

  /** Starting from non-negative second moments, they stay non-negative. */
  lemma SecondMomentsNonNegative(v: seq<real>, g: seq<real>, beta2: real)
    requires |v| <= |g| && NonNegative(v) && 0.0 <= beta2 <= 1.0
    ensures NonNegative(SecondMoments(v, g, beta2))
  {
    forall k | 0 <= k < |v| ensures SecondMoments(v, g, beta2)[k] >= 0.0 {
      SecondMomentNonNegative(v[k], g[k], beta2);
    }
  }

  /** One parameter matrix with its two caches: moments first, then the parameter. */
  method AdamMatrix(p: Matrices.Matrix, g: Matrices.Matrix, m0: Mat, v0: Mat,
                    lr: real, beta1: real, beta2: real, cm: real, cv: real, eps: real)
    returns (m: Mat, v: Mat)
    requires p.Valid() && g.Valid() && p != g && |p.data| <= |g.data|
    requires Wf(m0) && Wf(v0) && m0.rows == v0.rows == p.rows && m0.cols == v0.cols == p.cols
    requires 0.0 <= beta1 < 1.0 && 0.0 <= beta2 < 1.0 && cv > 0.0 && eps > 0.0
    requires MomentBounded(m0.data) && NonNegative(v0.data)
    modifies p
    ensures p.Valid() && p.rows == old(p.rows) && p.cols == old(p.cols)
    ensures m == m0.(data := FirstMoments(m0.data, g.data, beta1))
    ensures v == v0.(data := SecondMoments(v0.data, g.data, beta2))
    ensures MomentBounded(m.data) && NonNegative(v.data)
    ensures p.data == AdamData(old(p.data), m.data, v.data, lr, cm, cv, eps)
  {
    FirstMomentsBounded(m0.data, g.data, beta1);
    SecondMomentsNonNegative(v0.data, g.data, beta2);
    ghost var mEnd := FirstMoments(m0.data, g.data, beta1);
    ghost var vEnd := SecondMoments(v0.data, g.data, beta2);
    ghost var pEnd := AdamData(p.data, mEnd, vEnd, lr, cm, cv, eps);
    ghost var p0 := p.data;
    var size := p.rows * p.cols;
    var mm, vv := m0.data, v0.data;
    var j := 0;
    while j < size
      invariant 0 <= j <= size && p.rows * p.cols == size && |p.data| == size && |mm| == size && |vv| == size
      invariant p.rows == old(p.rows) && p.cols == old(p.cols)
      invariant forall k :: 0 <= k < size ==> mm[k] == if k < j then mEnd[k] else m0.data[k]
      invariant forall k :: 0 <= k < size ==> vv[k] == if k < j then vEnd[k] else v0.data[k]
      invariant forall k :: 0 <= k < size ==> p.data[k] == if k < j then pEnd[k] else p0[k]
    {
      var mj := FirstMoment(mm[j], g.data[j], beta1);
      var vj := SecondMoment(vv[j], g.data[j], beta2);
      mm := mm[j := mj];
      vv := vv[j := vj];
      p.data := p.data[j := AdamCell(p.data[j], mj, vj, lr, cm, cv, eps)];
      j := j + 1;
    }
    assert mm == mEnd && vv == vEnd && p.data == pEnd;
    m, v := m0.(data := mm), v0.(data := vv);
  }

  /** The parameter loop of Adam over already prepared caches. */
  method AdamAll(params: seq<Matrices.Matrix>, grads: seq<Matrices.Matrix>, ms: seq<Mat>, vs: seq<Mat>,
                 lr: real, beta1: real, beta2: real, cm: real, cv: real, eps: real)
    returns (ms': seq<Mat>, vs': seq<Mat>)
    requires |params| == |grads| == |ms| == |vs| && Separate(params, grads) && AllValid(params) && AllValid(grads)
    requires GradsCover(params, grads)
    requires forall i :: 0 <= i < |ms| ==> CacheFits(ms[i], vs[i], params[i].rows, params[i].cols)
    requires 0.0 <= beta1 < 1.0 && 0.0 <= beta2 < 1.0 && cv > 0.0 && eps > 0.0
    modifies params
    ensures AllValid(params) && |ms'| == |ms| && |vs'| == |vs|
    ensures forall i :: 0 <= i < |params| ==> |ms[i].data| <= |grads[i].data| && |vs[i].data| <= |grads[i].data|
    ensures forall i :: 0 <= i < |params| ==>
      params[i].rows == old(params[i].rows) && params[i].cols == old(params[i].cols) &&
      ms'[i] == ms[i].(data := FirstMoments(ms[i].data, grads[i].data, beta1)) &&
      vs'[i] == vs[i].(data := SecondMoments(vs[i].data, grads[i].data, beta2)) &&
      CacheFits(ms'[i], vs'[i], params[i].rows, params[i].cols) &&
      params[i].data == AdamData(old(params[i].data), ms'[i].data, vs'[i].data, lr, cm, cv, eps)
  {
    ms', vs' := ms, vs;
    var i := 0;
    while i < |params|
      invariant 0 <= i <= |params| && AllValid(params) && AllValid(grads) && |ms'| == |ms| && |vs'| == |vs|
      invariant forall k :: 0 <= k < |params| ==> |params[k].data| <= |grads[k].data|
      invariant forall k :: 0 <= k < |params| ==>
        params[k].rows == old(params[k].rows) && params[k].cols == old(params[k].cols)
      invariant forall k :: i <= k < |params| ==> params[k].data == old(params[k].data) && ms'[k] == ms[k] && vs'[k] == vs[k]
      invariant forall k :: 0 <= k < i ==>
        ms'[k] == ms[k].(data := FirstMoments(ms[k].data, grads[k].data, beta1)) &&
        vs'[k] == vs[k].(data := SecondMoments(vs[k].data, grads[k].data, beta2)) &&
        CacheFits(ms'[k], vs'[k], params[k].rows, params[k].cols) &&
        params[k].data == AdamData(old(params[k].data), ms'[k].data, vs'[k].data, lr, cm, cv, eps)
    {
      var m, v := AdamMatrix(params[i], grads[i], ms'[i], vs'[i], lr, beta1, beta2, cm, cv, eps);
      ms' := ms'[i := m];
      vs' := vs'[i := v];
      i := i + 1;
    }
  }

  /** A pair of moment caches shaped like a rows x cols parameter, with the bounds Adam keeps. */
  ghost predicate CacheFits(m: Mat, v: Mat, rows: nat, cols: nat)
  {
    Wf(m) && Wf(v) && m.rows == v.rows == rows && m.cols == v.cols == cols &&
    MomentBounded(m.data) && NonNegative(v.data)
  }

  /** A zero matrix built directly as a buffer of zeros. */
  function ZeroMat(r: nat, c: nat): (z: Mat)
    ensures z == Zeros(r, c)
    ensures forall k :: 0 <= k < |z.data| ==> z.data[k] == 0.0
  {
    var z := Mat(r, c, seq(r * c, k => 0.0));
    ConstFlat(r, c, 0.0, z.data);
    z
  }

  /** The zero caches created on the first call, one per parameter. */
  function ZeroCaches(shapes: seq<(nat, nat)>): (c: seq<Mat>)
    ensures |c| == |shapes|
    ensures forall i :: 0 <= i < |shapes| ==> c[i] == Zeros(shapes[i].0, shapes[i].1)
    ensures forall i :: 0 <= i < |shapes| ==> CacheFits(c[i], c[i], shapes[i].0, shapes[i].1)
  {
    seq(|shapes|, i requires 0 <= i < |shapes| => ZeroMat(shapes[i].0, shapes[i].1))
  }

  function Shapes(params: seq<Matrices.Matrix>): (s: seq<(nat, nat)>)
    reads params
    ensures |s| == |params|
    ensures forall i :: 0 <= i < |params| ==> s[i] == (params[i].rows, params[i].cols)
  {
    seq(|params|, i requires 0 <= i < |params| reads params => (params[i].rows, params[i].cols))
  }

  class Adam {
    var learningRate: real
    var beta1: real
    var beta2: real
    var epsilon: real
    var t: nat
    var mCache: seq<Mat>
    var vCache: seq<Mat>

    /** The decay rates lie in [0, 1), epsilon is positive, and the caches are parallel and bounded. */
    ghost predicate Valid()
      reads this
    {
      0.0 <= beta1 < 1.0 && 0.0 <= beta2 < 1.0 && epsilon > 0.0 && |mCache| == |vCache| &&
      forall i :: 0 <= i < |mCache| ==> CacheFits(mCache[i], vCache[i], mCache[i].rows, mCache[i].cols)
    }

    constructor(lr: real, b1: real, b2: real, eps: real)
      requires 0.0 <= b1 < 1.0 && 0.0 <= b2 < 1.0 && eps > 0.0
      ensures Valid() && t == 0 && mCache == [] && vCache == []
      ensures learningRate == lr && beta1 == b1 && beta2 == b2 && epsilon == eps
    {
      learningRate, beta1, beta2, epsilon := lr, b1, b2, eps;
      t, mCache, vCache := 0, [], [];
    }

    /** Caches that exist are shaped like the parameters they belong to. */
    ghost predicate CachesMatch(params: seq<Matrices.Matrix>)
      reads this, params
    {
      |mCache| == 0 || (|mCache| == |params| &&
        forall i :: 0 <= i < |params| ==> mCache[i].rows == params[i].rows && mCache[i].cols == params[i].cols)
    }

    /**
     * `Adam::update`: throws on a length mismatch before touching anything;
     * otherwise creates zero caches if there are none yet, increments t,
     * and steps every parameter with the bias corrections for the new t.
     */
    method Update(params: seq<Matrices.Matrix>, grads: seq<Matrices.Matrix>) returns (r: Result<()>)
      requires Valid() && Separate(params, grads) && AllValid(params) && AllValid(grads) && GradsCover(params, grads)
      requires CachesMatch(params)
      modifies this, params
      ensures Valid() && AllValid(params)
      ensures learningRate == old(learningRate) && beta1 == old(beta1) && beta2 == old(beta2) && epsilon == old(epsilon)
      ensures r.Err? <==> |params| != |grads|
      ensures r.Err? ==> t == old(t) && mCache == old(mCache) && vCache == old(vCache)
      ensures r.Err? ==> forall i :: 0 <= i < |params| ==> params[i].Value() == old(params[i].Value())
      ensures r.Ok? ==> t == old(t) + 1 && |mCache| == |vCache| == |params|
      ensures r.Ok? ==>
        var m0 := if |old(mCache)| == 0 then ZeroCaches(old(Shapes(params))) else old(mCache);
        var v0 := if |old(vCache)| == 0 then ZeroCaches(old(Shapes(params))) else old(vCache);
        forall i :: 0 <= i < |params| ==>
          params[i].rows == old(params[i].rows) && params[i].cols == old(params[i].cols) &&
          mCache[i] == m0[i].(data := FirstMoments(m0[i].data, grads[i].data, beta1)) &&
          vCache[i] == v0[i].(data := SecondMoments(v0[i].data, grads[i].data, beta2)) &&
          params[i].data == AdamData(old(params[i].data), mCache[i].data, vCache[i].data,
                                     learningRate, Correction(beta1, t), Correction(beta2, t), epsilon)
    {
      if |params| != |grads| {
        return Err("Optimizer Mismatch: Params/Grads count mismatch.");
      }
      if |mCache| == 0 {
        var shapes := Shapes(params);
        mCache := ZeroCaches(shapes);
        vCache := ZeroCaches(shapes);
      }
      t := t + 1;
      var cm := Correction(beta1, t);
      var cv := Correction(beta2, t);
      var ms, vs := AdamAll(params, grads, mCache, vCache, learningRate, beta1, beta2, cm, cv, epsilon);
      mCache, vCache := ms, vs;
      r := Ok(());
    }
  }
}
