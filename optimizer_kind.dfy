// The optimizer a network holds (`std::unique_ptr<Optimizer>`): an SGD or
// an Adam object of src/core/Optimizer.cpp. The network passes it the
// addresses of its parameter and gradient matrices; here `Step` hands the
// optimizer one fresh `Matrix` object per parameter and per gradient,
// lets it update them, and reads the parameters back as values.
module OptimizerKinds {
  import opened Common
  import opened MatrixSpec
  import Matrices
  import Optimizers

  /** What an optimizer computes with: its hyper-parameters and, for Adam, its step count and caches. */
  datatype Settings =
    | SgdSettings(lr: real)
    | AdamSettings(lr: real, beta1: real, beta2: real, epsilon: real, t: nat, m: seq<Mat>, v: seq<Mat>)
  {
    /** The invariant the Adam object keeps. */
    ghost predicate Sound()
    {
      match this
      case SgdSettings(_) => true
      case AdamSettings(_, b1, b2, eps, _, m, v) =>
        0.0 <= b1 < 1.0 && 0.0 <= b2 < 1.0 && eps > 0.0 && |m| == |v| &&
        forall i :: 0 <= i < |m| ==> Optimizers.CacheFits(m[i], v[i], m[i].rows, m[i].cols)
    }

    /** Adam's caches are either not created yet or shaped like the parameters ps. */
    ghost predicate Ready(ps: seq<Mat>)
    {
      match this
      case SgdSettings(_) => true
      case AdamSettings(_, _, _, _, _, m, _) =>
        |m| == 0 || (|m| == |ps| && forall i :: 0 <= i < |ps| ==> m[i].rows == ps[i].rows && m[i].cols == ps[i].cols)
    }
  }

  /** The rows x cols of every parameter. */
  function ShapesOf(ps: seq<Mat>): (s: seq<(nat, nat)>)
    ensures |s| == |ps| && forall i :: 0 <= i < |ps| ==> s[i] == (ps[i].rows, ps[i].cols)
  {
    seq(|ps|, i requires 0 <= i < |ps| => (ps[i].rows, ps[i].cols))
  }

  /** The moment caches Adam steps from: zero caches on the first call, the stored ones after. */
  ghost function StartMoments(st: Settings, ps: seq<Mat>): (r: (seq<Mat>, seq<Mat>))
    requires st.AdamSettings? && st.Sound() && st.Ready(ps)
    ensures |r.0| == |r.1| == |ps|
    ensures forall i :: 0 <= i < |ps| ==> Optimizers.CacheFits(r.0[i], r.1[i], ps[i].rows, ps[i].cols)
  {
    if |st.m| == 0 then (Optimizers.ZeroCaches(ShapesOf(ps)), Optimizers.ZeroCaches(ShapesOf(ps)))
    else (st.m, st.v)
  }

  /** The moment caches after one Adam step with gradients gs. */
  ghost function NextMoments(st: Settings, ps: seq<Mat>, gs: seq<Mat>): (r: (seq<Mat>, seq<Mat>))
    requires st.AdamSettings? && st.Sound() && st.Ready(ps) && Fitting(ps, gs) && AllWf(ps) && AllWf(gs)
    ensures |r.0| == |r.1| == |ps|
    ensures forall i :: 0 <= i < |ps| ==> Optimizers.CacheFits(r.0[i], r.1[i], ps[i].rows, ps[i].cols)
  {
    var (m0, v0) := StartMoments(st, ps);
    var m := seq(|ps|, i requires 0 <= i < |ps| => m0[i].(data := Optimizers.FirstMoments(m0[i].data, gs[i].data, st.beta1)));
    var v := seq(|ps|, i requires 0 <= i < |ps| => v0[i].(data := Optimizers.SecondMoments(v0[i].data, gs[i].data, st.beta2)));
    forall i | 0 <= i < |ps| ensures Optimizers.CacheFits(m[i], v[i], ps[i].rows, ps[i].cols) {
      Optimizers.FirstMomentsBounded(m0[i].data, gs[i].data, st.beta1);
      Optimizers.SecondMomentsNonNegative(v0[i].data, gs[i].data, st.beta2);
    }
    (m, v)
  }

  /** The optimizer's settings after one `update` of parameters ps with gradients gs. */
  ghost function Advanced(st: Settings, ps: seq<Mat>, gs: seq<Mat>): (r: Settings)
    requires st.Sound() && st.Ready(ps) && Fitting(ps, gs) && AllWf(ps) && AllWf(gs)
  {
    match st
    case SgdSettings(_) => st
    case AdamSettings(lr, b1, b2, eps, t, _, _) =>
      var (m, v) := NextMoments(st, ps, gs);
      AdamSettings(lr, b1, b2, eps, t + 1, m, v)
  }

  /** The parameters after one `update`: SGD moves each cell by lr times the clipped gradient. */
  ghost function Stepped(st: Settings, ps: seq<Mat>, gs: seq<Mat>): (r: seq<Mat>)
    requires st.Sound() && st.Ready(ps) && Fitting(ps, gs) && AllWf(ps) && AllWf(gs)
  {
    match st
    case SgdSettings(lr) =>
      seq(|ps|, i requires 0 <= i < |ps| => ps[i].(data := Optimizers.SgdData(ps[i].data, gs[i].data, lr)))
    case AdamSettings(lr, b1, b2, eps, t, _, _) =>
      var (m, v) := NextMoments(st, ps, gs);
      var cm, cv := Optimizers.Correction(b1, t + 1), Optimizers.Correction(b2, t + 1);
      seq(|ps|, i requires 0 <= i < |ps| => ps[i].(data := Optimizers.AdamData(ps[i].data, m[i].data, v[i].data, lr, cm, cv, eps)))
  }

  /**
   * A step keeps the number and the shapes of the parameters, keeps the
   * optimizer's invariant, and leaves Adam's caches shaped like the new
   * parameters, so the next step can run.
   */
  lemma SteppedFits(st: Settings, ps: seq<Mat>, gs: seq<Mat>)
    requires st.Sound() && st.Ready(ps) && Fitting(ps, gs) && AllWf(ps) && AllWf(gs)
    ensures Fitting(Stepped(st, ps, gs), ps) && AllWf(Stepped(st, ps, gs))
    ensures Advanced(st, ps, gs).Sound() && Advanced(st, ps, gs).Ready(Stepped(st, ps, gs))
  {
    var r := Stepped(st, ps, gs);
    if st.AdamSettings? {
      var (m, v) := NextMoments(st, ps, gs);
      assert Advanced(st, ps, gs).m == m;
    }
  }

  /**
   * One `update` took the settings st and parameters ps, with gradients gs,
   * to the settings st2 and parameters ps2.
   */
  ghost predicate Updated(st: Settings, ps: seq<Mat>, gs: seq<Mat>, st2: Settings, ps2: seq<Mat>)
  {
    st.Sound() && st.Ready(ps) && Fitting(ps, gs) && AllWf(ps) && AllWf(gs) &&
    st2 == Advanced(st, ps, gs) && ps2 == Stepped(st, ps, gs)
  }

  /** Caches shaped like some parameters are shaped like any parameters of the same shapes. */
  lemma ReadyFitting(st: Settings, ps: seq<Mat>, qs: seq<Mat>)
    requires st.Ready(ps) && Fitting(ps, qs)
    ensures st.Ready(qs)
  {
  }

  /** With SGD no cell of any parameter moves by more than |lr|. */
  lemma SgdStepBounded(lr: real, ps: seq<Mat>, gs: seq<Mat>, i: nat, k: nat)
    requires Fitting(ps, gs) && AllWf(ps) && AllWf(gs) && i < |ps| && k < |ps[i].data|
    ensures AbsR(Stepped(SgdSettings(lr), ps, gs)[i].data[k] - ps[i].data[k]) <= AbsR(lr)
  {
    Optimizers.SgdMovesAtMostLr(ps[i].data, gs[i].data, lr);
  }

  /** The optimizer object a network owns. */
  datatype Optimizer = Sgd(sgd: Optimizers.SGD) | Adam(adam: Optimizers.Adam)
  {
    function Obj(): object
    {
      match this
      case Sgd(o) => o
      case Adam(o) => o
    }

    ghost predicate Valid()
      reads Obj()
    {
      match this
      case Sgd(_) => true
      case Adam(o) => o.Valid()
    }

    function Snapshot(): (st: Settings)
      reads Obj()
      ensures Valid() ==> st.Sound()
    {
      match this
      case Sgd(o) => SgdSettings(o.learningRate)
      case Adam(o) => AdamSettings(o.learningRate, o.beta1, o.beta2, o.epsilon, o.t, o.mCache, o.vCache)
    }
  }

  /** Fresh matrix objects holding the given values, no two the same. */
  method Wrap(ms: seq<Mat>) returns (os: seq<Matrices.Matrix>)
    requires AllWf(ms)
    ensures |os| == |ms| && Optimizers.AllValid(os)
    ensures forall i :: 0 <= i < |os| ==> fresh(os[i]) && os[i].Value() == ms[i]
    ensures forall i, j :: 0 <= i < j < |os| ==> os[i] != os[j]
  {
    os := [];
    while |os| < |ms|
      invariant |os| <= |ms| && Optimizers.AllValid(os)
      invariant forall i :: 0 <= i < |os| ==> fresh(os[i]) && os[i].Value() == ms[i]
      invariant forall i, j :: 0 <= i < j < |os| ==> os[i] != os[j]
    {
      var o := new Matrices.Matrix.Copy(ms[|os|]);
      os := os + [o];
    }
  }

  function Values(os: seq<Matrices.Matrix>): (ms: seq<Mat>)
    reads os
    ensures |ms| == |os| && forall i :: 0 <= i < |os| ==> ms[i] == os[i].Value()
  {
    seq(|os|, i requires 0 <= i < |os| reads os => os[i].Value())
  }

  /**
   * `optimizer->update(all_params, all_grads)` on the network's parameter
   * and gradient values: the parameters come back stepped and the
   * optimizer's state advanced. The two lists always have the same length
   * here, so the length check never throws.
   */
  method Step(opt: Optimizer, ps: seq<Mat>, gs: seq<Mat>) returns (next: seq<Mat>)
    requires opt.Valid() && Fitting(ps, gs) && AllWf(ps) && AllWf(gs) && opt.Snapshot().Ready(ps)
    modifies opt.Obj()
    ensures opt.Valid()
    ensures opt.Snapshot() == Advanced(old(opt.Snapshot()), ps, gs)
    ensures next == Stepped(old(opt.Snapshot()), ps, gs)
  {
    var pm := Wrap(ps);
    var gm := Wrap(gs);
    assert Optimizers.Separate(pm, gm);
    match opt {
      case Sgd(o) =>
        var r := o.Update(pm, gm);
        assert r.Ok?;
      case Adam(o) =>
        AdamUpdate(o, pm, gm, ps, gs);
    }
    next := Values(pm);
  }

  /** `Adam::update` on the wrapped parameters: moments first, then the parameters, with the new step count. */
  method AdamUpdate(o: Optimizers.Adam, pm: seq<Matrices.Matrix>, gm: seq<Matrices.Matrix>, ghost ps: seq<Mat>, ghost gs: seq<Mat>)
    requires o.Valid() && Optimizers.Separate(pm, gm) && Optimizers.AllValid(pm) && Optimizers.AllValid(gm)
    requires Values(pm) == ps && Values(gm) == gs && Fitting(ps, gs) && AllWf(ps) && AllWf(gs)
    requires Adam(o).Snapshot().Ready(ps)
    modifies o, pm
    ensures o.Valid() && Values(gm) == gs
    ensures Adam(o).Snapshot() == Advanced(old(Adam(o).Snapshot()), ps, gs)
    ensures Values(pm) == Stepped(old(Adam(o).Snapshot()), ps, gs)
  {
    ghost var st := Adam(o).Snapshot();
    AdamCall(o, pm, gm, ps, gs);
    ghost var (m, v) := NextMoments(st, ps, gs);
    AdamStepped(st, ps, gs, m, v, Values(pm));
  }

  /** The call itself, with its outcome stated cell by cell. */
  method AdamCall(o: Optimizers.Adam, pm: seq<Matrices.Matrix>, gm: seq<Matrices.Matrix>, ghost ps: seq<Mat>, ghost gs: seq<Mat>)
    requires o.Valid() && Optimizers.Separate(pm, gm) && Optimizers.AllValid(pm) && Optimizers.AllValid(gm)
    requires Values(pm) == ps && Values(gm) == gs && Fitting(ps, gs) && AllWf(ps) && AllWf(gs)
    requires Adam(o).Snapshot().Ready(ps)
    modifies o, pm
    ensures o.Valid() && Values(gm) == gs && |pm| == |ps|
    ensures Adam(o).Snapshot() == Advanced(old(Adam(o).Snapshot()), ps, gs)
    ensures var (m, v) := NextMoments(old(Adam(o).Snapshot()), ps, gs);
      forall i :: 0 <= i < |ps| ==>
        pm[i].Value() == ps[i].(data := Optimizers.AdamData(ps[i].data, m[i].data, v[i].data, o.learningRate,
                                                            Optimizers.Correction(o.beta1, o.t),
                                                            Optimizers.Correction(o.beta2, o.t), o.epsilon))
  {
    ghost var st := Adam(o).Snapshot();
    assert Optimizers.Shapes(pm) == ShapesOf(ps);
    var r := o.Update(pm, gm);
    assert r.Ok?;
    ghost var (m, v) := NextMoments(st, ps, gs);
    assert o.mCache == m && o.vCache == v;
  }

  /** Parameters stepped cell by cell with the new moments and corrections are the Adam step. */
  lemma AdamStepped(st: Settings, ps: seq<Mat>, gs: seq<Mat>, m: seq<Mat>, v: seq<Mat>, qs: seq<Mat>)
    requires st.AdamSettings? && st.Sound() && st.Ready(ps) && Fitting(ps, gs) && AllWf(ps) && AllWf(gs)
    requires (m, v) == NextMoments(st, ps, gs) && |qs| == |ps|
    requires forall i :: 0 <= i < |ps| ==>
      qs[i] == ps[i].(data := Optimizers.AdamData(ps[i].data, m[i].data, v[i].data, st.lr,
                                                  Optimizers.Correction(st.beta1, st.t + 1),
                                                  Optimizers.Correction(st.beta2, st.t + 1), st.epsilon))
    ensures qs == Stepped(st, ps, gs)
  {
  }
}
