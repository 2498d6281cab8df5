// `NeuralNetwork` and `NeuralNetworkBuilder` of
// src/neuralnetwork/NeuralNetwork.cpp. The network owns its layers (one per
// configuration, each sized by the shape its predecessor produces), an
// optimizer and a loss. `predict` folds the layers' forward passes over the
// input; `train` does the same with caching, back-propagates the loss
// gradient through the layers in reverse order, and hands the parameters and
// gradients of all layers, concatenated in layer order, to the optimizer in
// one call.
module NeuralNetworks {
  import opened Common
  import opened MatrixSpec
  import Layers
  import Optimizers
  import opened Networks
  import opened LossKinds
  import opened OptimizerKinds

  // ------------------------------------------------------ lists of layers

  /** The layer objects of a list of layers. */
  function Objs(ls: seq<Layer>): set<object>
  {
    set i | 0 <= i < |ls| :: ls[i].Obj()
  }

  /** No layer object occurs twice. */
  predicate Distinct(ls: seq<Layer>)
  {
    forall i, j :: 0 <= i < j < |ls| ==> ls[i].Obj() != ls[j].Obj()
  }

  ghost predicate AllValid(ls: seq<Layer>)
    reads Objs(ls)
  {
    forall i :: 0 <= i < |ls| ==> ls[i].Valid()
  }

  /** Layer i was made from configuration i on the shape layer i - 1 passes on. */
  ghost predicate Built(ls: seq<Layer>, cs: seq<LayerConfig>, s: Layers.Dims)
  {
    |ls| == |cs| && Buildable(cs, s) && forall i :: 0 <= i < |ls| ==> BuiltAt(ls, cs, s, i)
  }

  /** Layer i is the one `LayerFactory::create` makes from configuration i and its input shape. */
  ghost predicate BuiltAt(ls: seq<Layer>, cs: seq<LayerConfig>, s: Layers.Dims, i: nat)
  {
    i < |ls| && i < |cs| && ls[i].Matches(cs[i], ShapeAt(cs, s, i))
  }

  /** What each layer computes with. */
  ghost function StatesOf(ls: seq<Layer>): (sts: seq<LayerState>)
    requires AllValid(ls)
    reads Objs(ls)
    ensures |sts| == |ls| && AllSane(sts)
    ensures forall k :: 0 <= k < |ls| ==> sts[k] == ls[k].State()
  {
    seq(|ls|, k requires 0 <= k < |ls| && ls[k].Valid() reads Objs(ls) => ls[k].State())
  }

  /** `getParameters()` of every layer, in layer order. */
  function ParamLists(ls: seq<Layer>): (pss: seq<seq<Mat>>)
    reads Objs(ls)
    ensures |pss| == |ls| && forall k :: 0 <= k < |ls| ==> pss[k] == ls[k].Parameters()
  {
    seq(|ls|, k requires 0 <= k < |ls| reads Objs(ls) => ls[k].Parameters())
  }

  /** `getParameterGradients()` of every layer, in layer order. */
  function GradLists(ls: seq<Layer>): (gss: seq<seq<Mat>>)
    reads Objs(ls)
    ensures |gss| == |ls| && forall k :: 0 <= k < |ls| ==> gss[k] == ls[k].Gradients()
  {
    seq(|ls|, k requires 0 <= k < |ls| reads Objs(ls) => ls[k].Gradients())
  }

  /** The lists appended in order, as `all_params.insert(all_params.end(), ...)` does. */
  function Concat(pss: seq<seq<Mat>>): seq<Mat>
  {
    if |pss| == 0 then [] else Concat(pss[..|pss| - 1]) + pss[|pss| - 1]
  }

  /** `all_params`: every layer's parameters, in layer order. */
  function ParametersOf(ls: seq<Layer>): seq<Mat>
    reads Objs(ls)
  {
    Concat(ParamLists(ls))
  }

  /** `all_grads`: every layer's parameter gradients, in the same order. */
  function GradientsOf(ls: seq<Layer>): seq<Mat>
    reads Objs(ls)
  {
    Concat(GradLists(ls))
  }

  /** Lists that fit pairwise concatenate to lists that fit: `all_params` and `all_grads` stay parallel. */
  lemma {:induction false} ConcatFitting(pss: seq<seq<Mat>>, qss: seq<seq<Mat>>)
    requires |pss| == |qss| && forall k :: 0 <= k < |pss| ==> Fitting(pss[k], qss[k])
    ensures Fitting(Concat(pss), Concat(qss))
  {
    if |pss| > 0 {
      var n := |pss| - 1;
      ConcatFitting(pss[..n], qss[..n]);
      var a, b := Concat(pss[..n]), Concat(qss[..n]);
      assert Fitting(pss[n], qss[n]);
      forall i | 0 <= i < |a| + |pss[n]|
        ensures (a + pss[n])[i].rows == (b + qss[n])[i].rows && (a + pss[n])[i].cols == (b + qss[n])[i].cols
      {
        if i >= |a| { assert (a + pss[n])[i] == pss[n][i - |a|] && (b + qss[n])[i] == qss[n][i - |a|]; }
      }
    }
  }

  /** Well-formed lists concatenate to a well-formed list. */
  lemma {:induction false} ConcatWf(pss: seq<seq<Mat>>)
    requires forall k :: 0 <= k < |pss| ==> AllWf(pss[k])
    ensures AllWf(Concat(pss))
  {
    if |pss| > 0 {
      var n := |pss| - 1;
      ConcatWf(pss[..n]);
      var a := Concat(pss[..n]);
      forall i | 0 <= i < |a| + |pss[n]| ensures Wf((a + pss[n])[i]) {
        if i >= |a| { assert (a + pss[n])[i] == pss[n][i - |a|]; }
      }
    }
  }

  /** The first i lists concatenate to a prefix of all of them. */
  lemma {:induction false} ConcatPrefix(pss: seq<seq<Mat>>, i: nat)
    requires i <= |pss|
    ensures Concat(pss[..i]) <= Concat(pss)
    decreases |pss| - i
  {
    if i < |pss| {
      ConcatPrefix(pss, i + 1);
      assert pss[..i + 1][..i] == pss[..i];
      assert Concat(pss[..i + 1]) == Concat(pss[..i]) + pss[i];
    } else {
      assert pss[..i] == pss;
    }
  }

  /** Every layer's parameters are well formed, and so is their concatenation. */
  lemma ParametersWf(ls: seq<Layer>)
    requires AllValid(ls)
    ensures AllWf(ParametersOf(ls))
  {
    var pss := ParamLists(ls);
    forall k | 0 <= k < |pss| ensures AllWf(pss[k]) {
      assert ls[k].State().Sane() && ls[k].State().Params() == pss[k];
    }
    ConcatWf(pss);
  }

  /** Layers whose gradients fit their parameters give `all_params` and `all_grads` that fit. */
  lemma GradientsFit(ls: seq<Layer>)
    requires AllValid(ls) && forall k :: 0 <= k < |ls| ==> ls[k].GradsFit()
    ensures Fitting(ParametersOf(ls), GradientsOf(ls)) && AllWf(ParametersOf(ls)) && AllWf(GradientsOf(ls))
  {
    var pss, gss := ParamLists(ls), GradLists(ls);
    ParametersWf(ls);
    forall k | 0 <= k < |ls| ensures AllWf(gss[k]) {
      assert ls[k].Valid();
    }
    ConcatWf(gss);
    ConcatFitting(pss, gss);
  }

  /** Layers with unchanged states have unchanged parameters. */
  lemma SameParameters(ls: seq<Layer>, pss: seq<seq<Mat>>, sts: seq<LayerState>)
    requires AllValid(ls) && |sts| == |ls| && pss == ParamLists(ls)
    requires forall k :: 0 <= k < |ls| ==> ls[k].State() == sts[k]
    ensures ParamLists(ls) == seq(|ls|, k requires 0 <= k < |ls| => sts[k].Params())
  {
  }

  /**
   * In a built network, the output of layer k - 1 has the width layer k
   * reads: each run's intermediate value has the width of the input of
   * the layer after it.
   */
  lemma WidthsAgree(ls: seq<Layer>, cs: seq<LayerConfig>, s: Layers.Dims, sts: seq<LayerState>, x: Mat, ins: seq<Mat>)
    requires Built(ls, cs, s) && Wf(x) && |sts| == |ls| && AllSane(sts)
    requires forall k :: 0 <= k < |ls| ==> ls[k].Valid() && ls[k].State() == sts[k]
    requires |ins| == |ls| + 1 && forall k :: 0 <= k <= |ls| ==> Run(sts, x, k) == Ok(ins[k])
    ensures forall k :: 0 < k < |ls| ==> ins[k].cols == sts[k].InWidth()
  {
    forall k | 0 < k < |ls| ensures ins[k].cols == sts[k].InWidth() {
      assert BuiltAt(ls, cs, s, k - 1) && BuiltAt(ls, cs, s, k);
      BuildablePrefix(cs, s, k - 1, |cs|);
      BuildablePrefix(cs, s, k, |cs|);
      LayerWidths(ls[k - 1], cs[k - 1], ShapeAt(cs, s, k - 1));
      LayerWidths(ls[k], cs[k], ShapeAt(cs, s, k));
      RunWidth(sts, x, k);
    }
  }

  // ------------------------------------------------------- the three passes

  /** Layer l is well formed and computes with st. */
  ghost predicate Kept(l: Layer, st: LayerState)
    reads l.Obj()
  {
    l.Valid() && l.State() == st
  }

  /** Every valid layer is kept with its own state. */
  lemma KeptAll(ls: seq<Layer>)
    requires AllValid(ls)
    ensures forall k :: 0 <= k < |ls| ==> Kept(ls[k], StatesOf(ls)[k])
  {
  }

  /** Kept layers are valid, and sts is what they compute with. */
  lemma KeptValid(ls: seq<Layer>, sts: seq<LayerState>)
    requires |sts| == |ls| && forall k :: 0 <= k < |ls| ==> Kept(ls[k], sts[k])
    ensures AllValid(ls) && StatesOf(ls) == sts
  {
  }

  /** The parameters each state computes with. */
  ghost function StateParams(sts: seq<LayerState>): (pss: seq<seq<Mat>>)
    ensures |pss| == |sts|
  {
    seq(|sts|, k requires 0 <= k < |sts| => sts[k].Params())
  }

  /** Kept layers hold the parameters of their states. */
  lemma KeptParams(ls: seq<Layer>, sts: seq<LayerState>)
    requires |sts| == |ls| && forall k :: 0 <= k < |ls| ==> Kept(ls[k], sts[k])
    ensures ParamLists(ls) == StateParams(sts)
  {
    forall k | 0 <= k < |ls| ensures ParamLists(ls)[k] == StateParams(sts)[k] {
      assert Kept(ls[k], sts[k]);
    }
  }

  /** Layer i's forward pass, with every other layer left as it was. */
  method ForwardStep(ls: seq<Layer>, i: nat, x: Mat, training: bool, ghost sts: seq<LayerState>, ghost ins: seq<Mat>)
    returns (y: Result<Mat>)
    requires i < |ls| && |sts| == |ls| && |ins| == i + 1 && Distinct(ls) && Wf(x) && AllSane(sts)
    requires forall k :: 0 <= k < |ls| ==> Kept(ls[k], sts[k])
    requires training ==> forall k :: 0 <= k < i ==> ls[k].Primed(ins[k], ins[k + 1])
    modifies ls[i].Obj()
    ensures forall k :: 0 <= k < |ls| ==> Kept(ls[k], sts[k])
    ensures y == sts[i].Output(x)
    ensures training ==> forall k :: 0 <= k < i ==> ls[k].Primed(ins[k], ins[k + 1])
    ensures training && y.Ok? ==> ls[i].Primed(x, y.value)
  {
    assert Kept(ls[i], sts[i]);
    y := ls[i].Forward(x, training);
  }

  /** One more layer that succeeds extends the run by its output. */
  lemma RunExtends(sts: seq<LayerState>, x: Mat, ins: seq<Mat>, y: Mat)
    requires AllSane(sts) && Wf(x) && 0 < |ins| <= |sts|
    requires forall k :: 0 <= k < |ins| ==> Run(sts, x, k) == Ok(ins[k])
    requires Wf(ins[|ins| - 1]) && sts[|ins| - 1].Output(ins[|ins| - 1]) == Ok(y)
    ensures forall k :: 0 <= k <= |ins| ==> Run(sts, x, k) == Ok((ins + [y])[k])
  {
    var n := |ins|;
    forall k | 0 <= k <= n ensures Run(sts, x, k) == Ok((ins + [y])[k]) {
      if k < n {
        assert (ins + [y])[k] == ins[k];
      } else {
        assert Run(sts, x, n - 1) == Ok(ins[n - 1]);
      }
    }
  }

  /** The bookkeeping of one successful layer: the run and the primed layers extend by its output. */
  lemma Advance(ls: seq<Layer>, sts: seq<LayerState>, x: Mat, ins: seq<Mat>, y: Mat, training: bool)
    requires AllSane(sts) && Wf(x) && 0 < |ins| <= |sts| && |sts| == |ls|
    requires forall k :: 0 <= k < |ins| ==> Run(sts, x, k) == Ok(ins[k])
    requires Wf(ins[|ins| - 1]) && sts[|ins| - 1].Output(ins[|ins| - 1]) == Ok(y)
    requires training ==> forall k :: 0 <= k < |ins| - 1 ==> ls[k].Primed(ins[k], ins[k + 1])
    requires training ==> ls[|ins| - 1].Primed(ins[|ins| - 1], y)
    ensures forall k :: 0 <= k <= |ins| ==> Run(sts, x, k) == Ok((ins + [y])[k])
    ensures training ==> forall k :: 0 <= k < |ins| ==> ls[k].Primed((ins + [y])[k], (ins + [y])[k + 1])
  {
    RunExtends(sts, x, ins, y);
    if training {
      PrimedExtends(ls, ins, y);
    }
  }

  /** The layers primed along ins, and the next one primed to y, are primed along ins + [y]. */
  lemma PrimedExtends(ls: seq<Layer>, ins: seq<Mat>, y: Mat)
    requires 0 < |ins| <= |ls|
    requires forall k :: 0 <= k < |ins| - 1 ==> ls[k].Primed(ins[k], ins[k + 1])
    requires ls[|ins| - 1].Primed(ins[|ins| - 1], y)
    ensures forall k :: 0 <= k < |ins| ==> ls[k].Primed((ins + [y])[k], (ins + [y])[k + 1])
  {
    var next := ins + [y];
    var n := |ins|;
    forall k | 0 <= k < n ensures ls[k].Primed(next[k], next[k + 1]) {
      if k < n - 1 {
        assert next[k] == ins[k] && next[k + 1] == ins[k + 1];
      } else {
        assert next[k] == ins[n - 1] && next[k + 1] == y;
      }
    }
  }

  /** A layer that throws ends the whole run with its error. */
  lemma RunFails(sts: seq<LayerState>, x: Mat, ins: seq<Mat>, y: Result<Mat>, n: nat)
    requires AllSane(sts) && Wf(x) && 0 < |ins| <= n <= |sts|
    requires Run(sts, x, |ins| - 1) == Ok(ins[|ins| - 1])
    requires Wf(ins[|ins| - 1]) && y == sts[|ins| - 1].Output(ins[|ins| - 1]) && y.Err?
    ensures Run(sts, x, n) == y
  {
    RunStaysFailed(sts, x, |ins|, n);
  }

  /**
   * The forward loop of `predict` and `train`: layer after layer, stopping
   * at the first that throws. The layers keep their parameters; with
   * caching, each layer is left primed with its own input and output.
   */
  method ForwardAll(ls: seq<Layer>, x: Mat, training: bool, ghost sts: seq<LayerState>)
    returns (r: Result<Mat>, ghost ins: seq<Mat>)
    requires Distinct(ls) && Wf(x) && |sts| == |ls| && AllSane(sts)
    requires forall k :: 0 <= k < |ls| ==> Kept(ls[k], sts[k])
    modifies Objs(ls)
    ensures forall k :: 0 <= k < |ls| ==> Kept(ls[k], sts[k])
    ensures r == Run(sts, x, |ls|)
    ensures r.Ok? ==> |ins| == |ls| + 1 && ins[|ls|] == r.value
    ensures r.Ok? ==> forall k :: 0 <= k <= |ls| ==> Run(sts, x, k) == Ok(ins[k])
    ensures training && r.Ok? ==> forall k :: 0 <= k < |ls| ==> ls[k].Primed(ins[k], ins[k + 1])
  {
    var out := x;
    ins := [x];
    var i := 0;
    while i < |ls|
      invariant 0 <= i <= |ls| && |ins| == i + 1 && ins[i] == out && Wf(out)
      invariant forall k :: 0 <= k < |ls| ==> Kept(ls[k], sts[k])
      invariant forall k :: 0 <= k <= i ==> Run(sts, x, k) == Ok(ins[k])
      invariant training ==> forall k :: 0 <= k < i ==> ls[k].Primed(ins[k], ins[k + 1])
    {
      var y := ForwardStep(ls, i, out, training, sts, ins);
      if y.Err? {
        RunFails(sts, x, ins, y, |ls|);
        return y, ins;
      }
      ghost var next := ins + [y.value];
      Advance(ls, sts, x, ins, y.value, training);
      out := y.value;
      ins := next;
      i := i + 1;
    }
    r := Ok(out);
  }

  /**
   * The backward loop's state before layer i - 1 runs: every layer keeps its
   * state and its cached forward pass, and the layers from i on have
   * gradients of their parameters' shapes.
   */
  ghost predicate Settled(ls: seq<Layer>, sts: seq<LayerState>, ins: seq<Mat>, i: nat)
    reads Objs(ls)
  {
    |sts| == |ls| && |ins| == |ls| + 1 && i <= |ls| &&
    (forall k :: 0 <= k < |ls| ==> Kept(ls[k], sts[k]) && ls[k].Primed(ins[k], ins[k + 1])) &&
    (forall k :: i <= k < |ls| ==> ls[k].GradsFit())
  }

  /** Layer i's backward pass, with every other layer left as it was. */
  method BackwardStep(ls: seq<Layer>, i: nat, g: Mat, ghost sts: seq<LayerState>, ghost ins: seq<Mat>)
    returns (b: Result<Mat>)
    requires i < |ls| && Distinct(ls) && Settled(ls, sts, ins, i + 1) && Wf(g)
    requires g.rows == ins[i + 1].rows && g.cols == ins[i + 1].cols
    modifies ls[i].Obj()
    ensures Settled(ls, sts, ins, i + 1)
    ensures b.Ok? ==> Settled(ls, sts, ins, i)
    ensures b.Ok? ==> Wf(b.value) && b.value.rows == ins[i].rows && b.value.cols == sts[i].InWidth()
  {
    var l := ls[i];
    assert Kept(l, sts[i]) && l.Primed(ins[i], ins[i + 1]);
    label Before:
    b := l.Backward(g, ins[i], ins[i + 1]);
    forall k | 0 <= k < |ls| && k != i
      ensures Kept(ls[k], sts[k]) && ls[k].Primed(ins[k], ins[k + 1]) && (i < k ==> ls[k].GradsFit())
    {
      assert ls[k].Obj() != l.Obj();
      assert unchanged@Before(ls[k].Obj());
    }
  }

  /**
   * The backward loop of `train`: from the last layer to the first, each
   * layer gets the gradient the layer after it returned. The layers keep
   * their parameters, and once every layer has run, each one's gradients
   * have its parameters' shapes.
   */
  method BackwardAll(ls: seq<Layer>, g: Mat, ghost sts: seq<LayerState>, ghost ins: seq<Mat>) returns (r: Result<Mat>)
    requires Distinct(ls) && |sts| == |ls| && |ins| == |ls| + 1 && Wf(g)
    requires forall k :: 0 <= k < |ls| ==> Kept(ls[k], sts[k]) && ls[k].Primed(ins[k], ins[k + 1])
    requires forall k :: 0 < k < |ls| ==> ins[k].cols == sts[k].InWidth()
    requires g.rows == ins[|ls|].rows && g.cols == ins[|ls|].cols
    modifies Objs(ls)
    ensures forall k :: 0 <= k < |ls| ==> Kept(ls[k], sts[k])
    ensures r.Ok? ==> forall k :: 0 <= k < |ls| ==> ls[k].GradsFit()
    ensures r.Ok? ==> Wf(r.value) && r.value.rows == ins[0].rows
  {
    var grad := g;
    var i := |ls|;
    while i > 0
      invariant 0 <= i <= |ls| && Wf(grad) && grad.rows == ins[i].rows
      invariant i > 0 ==> grad.cols == ins[i].cols
      invariant Settled(ls, sts, ins, i)
    {
      var b := BackwardStep(ls, i - 1, grad, sts, ins);
      if b.Err? {
        return b;
      }
      grad := b.value;
      i := i - 1;
    }
    r := Ok(grad);
  }

  // ------------------------------------------------------------ write-back

  /** next cut, in order, into pieces as long as the lists of pss. */
  ghost function Split(next: seq<Mat>, pss: seq<seq<Mat>>): (qss: seq<seq<Mat>>)
    requires |next| == |Concat(pss)|
    ensures |qss| == |pss|
    decreases |pss|
  {
    if |pss| == 0 then []
    else
      var n := |pss| - 1;
      var cut := |next| - |pss[n]|;
      Split(next[..cut], pss[..n]) + [next[cut..]]
  }

  /** The pieces concatenate back to next, each as long as its list. */
  lemma {:induction false} SplitConcat(next: seq<Mat>, pss: seq<seq<Mat>>)
    requires |next| == |Concat(pss)|
    ensures Concat(Split(next, pss)) == next
    ensures forall k :: 0 <= k < |pss| ==> |Split(next, pss)[k]| == |pss[k]|
    decreases |pss|
  {
    if |pss| > 0 {
      var n := |pss| - 1;
      var cut := |next| - |pss[n]|;
      var a := Split(next[..cut], pss[..n]);
      SplitConcat(next[..cut], pss[..n]);
      var qss := Split(next, pss);
      assert qss[..n] == a;
      assert Concat(qss) == Concat(a) + next[cut..];
      forall k | 0 <= k < n ensures |qss[k]| == |pss[k]| {
        assert qss[k] == a[k] && pss[..n][k] == pss[k];
      }
    }
  }

  /** Lists of pairwise equal lengths have prefixes of equal total length. */
  lemma {:induction false} PrefixLengths(pss: seq<seq<Mat>>, qss: seq<seq<Mat>>, i: nat)
    requires |pss| == |qss| && i <= |pss| && forall k :: 0 <= k < |pss| ==> |pss[k]| == |qss[k]|
    ensures |Concat(pss[..i])| == |Concat(qss[..i])|
  {
    if i > 0 {
      PrefixLengths(pss, qss, i - 1);
      assert pss[..i][..i - 1] == pss[..i - 1] && qss[..i][..i - 1] == qss[..i - 1];
    }
  }

  /** List i sits in the concatenation right after the lists before it. */
  lemma PieceAt(qss: seq<seq<Mat>>, i: nat)
    requires i < |qss|
    ensures |Concat(qss[..i + 1])| == |Concat(qss[..i])| + |qss[i]| <= |Concat(qss)|
    ensures Concat(qss)[|Concat(qss[..i])|..|Concat(qss[..i])| + |qss[i]|] == qss[i]
  {
    ConcatPrefix(qss, i + 1);
    assert qss[..i + 1][..i] == qss[..i];
    assert Concat(qss[..i + 1]) == Concat(qss[..i]) + qss[i];
  }

  /** Cutting a list that fits the concatenation gives pieces that fit the lists one by one. */
  lemma SplitFits(next: seq<Mat>, pss: seq<seq<Mat>>)
    requires Fitting(Concat(pss), next) && AllWf(next)
    ensures forall k :: 0 <= k < |pss| ==> Fitting(pss[k], Split(next, pss)[k]) && AllWf(Split(next, pss)[k])
  {
    var qss := Split(next, pss);
    SplitConcat(next, pss);
    forall k | 0 <= k < |pss| ensures Fitting(pss[k], qss[k]) && AllWf(qss[k]) {
      PieceFits(next, pss, qss, k);
    }
  }

  /** Piece k of a cut of next, where next fits the concatenation of pss, fits list k. */
  lemma PieceFits(next: seq<Mat>, pss: seq<seq<Mat>>, qss: seq<seq<Mat>>, k: nat)
    requires Fitting(Concat(pss), next) && AllWf(next) && Concat(qss) == next
    requires |qss| == |pss| && k < |pss| && forall j :: 0 <= j < |pss| ==> |pss[j]| == |qss[j]|
    ensures Fitting(pss[k], qss[k]) && AllWf(qss[k])
  {
    PrefixLengths(pss, qss, k);
    PieceAt(pss, k);
    PieceAt(qss, k);
    var pos := |Concat(pss[..k])|;
    forall j | 0 <= j < |pss[k]|
      ensures pss[k][j].rows == qss[k][j].rows && pss[k][j].cols == qss[k][j].cols && Wf(qss[k][j])
    {
      assert pss[k][j] == Concat(pss)[pos + j];
      assert qss[k][j] == next[pos + j];
    }
  }

  /** Layer l is well formed and holds parameters ps and gradients gs. */
  ghost predicate Holding(l: Layer, ps: seq<Mat>, gs: seq<Mat>)
    reads l.Obj()
  {
    l.Valid() && l.Parameters() == ps && l.Gradients() == gs
  }

  /** Layer i takes its piece; the layers before it hold theirs and the layers after it hold what they had. */
  method StoreStep(ls: seq<Layer>, i: nat, piece: seq<Mat>,
                   ghost pss: seq<seq<Mat>>, ghost qss: seq<seq<Mat>>, ghost gss: seq<seq<Mat>>)
    requires i < |ls| && |pss| == |ls| && |qss| == |ls| && |gss| == |ls| && Distinct(ls)
    requires piece == qss[i] && Fitting(pss[i], piece) && AllWf(piece)
    requires forall k :: 0 <= k < i ==> Holding(ls[k], qss[k], gss[k])
    requires forall k :: i <= k < |ls| ==> Holding(ls[k], pss[k], gss[k])
    modifies ls[i].Obj()
    ensures forall k :: 0 <= k <= i ==> Holding(ls[k], qss[k], gss[k])
    ensures forall k :: i < k < |ls| ==> Holding(ls[k], pss[k], gss[k])
  {
    assert Holding(ls[i], pss[i], gss[i]);
    ls[i].Store(piece);
  }

  /**
   * Layer i takes the `Count()` matrices of next from pos on, which are its
   * piece of the cut; the returned position is where layer i + 1's piece starts.
   */
  method StorePiece(ls: seq<Layer>, i: nat, next: seq<Mat>, pos: nat,
                    ghost pss: seq<seq<Mat>>, ghost qss: seq<seq<Mat>>, ghost gss: seq<seq<Mat>>)
    returns (after: nat)
    requires i < |ls| && |pss| == |ls| && |qss| == |ls| && |gss| == |ls| && Distinct(ls)
    requires next == Concat(qss) && pos == |Concat(qss[..i])|
    requires Fitting(pss[i], qss[i]) && AllWf(qss[i])
    requires forall k :: 0 <= k < i ==> Holding(ls[k], qss[k], gss[k])
    requires forall k :: i <= k < |ls| ==> Holding(ls[k], pss[k], gss[k])
    modifies ls[i].Obj()
    ensures after == |Concat(qss[..i + 1])|
    ensures forall k :: 0 <= k <= i ==> Holding(ls[k], qss[k], gss[k])
    ensures forall k :: i < k < |ls| ==> Holding(ls[k], pss[k], gss[k])
  {
    PieceAt(qss, i);
    assert Holding(ls[i], pss[i], gss[i]);
    var c := ls[i].Count();
    StoreStep(ls, i, next[pos..pos + c], pss, qss, gss);
    after := pos + c;
  }

  /** Every layer takes its piece of next, in layer order, keeping its gradients. */
  method StoreAll(ls: seq<Layer>, next: seq<Mat>,
                  ghost pss: seq<seq<Mat>>, ghost qss: seq<seq<Mat>>, ghost gss: seq<seq<Mat>>)
    requires |pss| == |ls| && |qss| == |ls| && |gss| == |ls| && Distinct(ls) && next == Concat(qss)
    requires forall k :: 0 <= k < |ls| ==> Fitting(pss[k], qss[k]) && AllWf(qss[k])
    requires forall k :: 0 <= k < |ls| ==> Holding(ls[k], pss[k], gss[k])
    modifies Objs(ls)
    ensures forall k :: 0 <= k < |ls| ==> Holding(ls[k], qss[k], gss[k])
  {
    var pos := 0;
    var i := 0;
    while i < |ls|
      invariant 0 <= i <= |ls| && pos == |Concat(qss[..i])|
      invariant forall k :: 0 <= k < i ==> Holding(ls[k], qss[k], gss[k])
      invariant forall k :: i <= k < |ls| ==> Holding(ls[k], pss[k], gss[k])
    {
      pos := StorePiece(ls, i, next, pos, pss, qss, gss);
      i := i + 1;
    }
  }

  /** Layers holding the given lists are valid and report exactly those lists. */
  lemma HoldingLists(ls: seq<Layer>, qss: seq<seq<Mat>>, gss: seq<seq<Mat>>)
    requires |qss| == |ls| && |gss| == |ls|
    requires forall k :: 0 <= k < |ls| ==> Holding(ls[k], qss[k], gss[k])
    ensures AllValid(ls) && ParamLists(ls) == qss && GradLists(ls) == gss
  {
  }

  /**
   * Writes the optimizer's output back, layer by layer: layer i takes the
   * next `Count()` matrices of the list, which have its parameters' shapes.
   */
  method WriteBack(ls: seq<Layer>, next: seq<Mat>)
    requires AllValid(ls) && Distinct(ls) && Fitting(ParametersOf(ls), next) && AllWf(next)
    modifies Objs(ls)
    ensures AllValid(ls) && ParametersOf(ls) == next && GradientsOf(ls) == old(GradientsOf(ls))
  {
    ghost var pss, gss := ParamLists(ls), GradLists(ls);
    ghost var qss := Split(next, pss);
    SplitConcat(next, pss);
    SplitFits(next, pss);
    StoreAll(ls, next, pss, qss, gss);
    HoldingLists(ls, qss, gss);
  }

  // ------------------------------------------------------------- network

  /** Layer objects and optimizer objects are of different classes. */
  lemma Apart(opt: Optimizer, ls: seq<Layer>)
    ensures opt.Obj() !in Objs(ls)
  {
  }

  /** A builder is not the optimizer it holds. */
  lemma BuilderApart(b: NeuralNetworkBuilder, opt: Optimizer)
    ensures b != opt.Obj()
  {
  }

  /** A network is neither one of its layers nor its optimizer. */
  lemma NetApart(n: NeuralNetwork, opt: Optimizer, ls: seq<Layer>)
    ensures n !in Objs(ls) && n != opt.Obj()
  {
  }

  /** An optimizer that has not stepped yet: SGD, or Adam without caches. */
  predicate Unused(st: Settings)
  {
    st.SgdSettings? || |st.m| == 0
  }

  /**
   * The inputs `train` can take: well-formed matrices, and a loss that is
   * defined on the output whenever the forward pass succeeds.
   */
  ghost predicate Trainable(sts: seq<LayerState>, k: LossKind, x: Mat, t: Mat)
  {
    AllSane(sts) && Wf(x) && Wf(t) && (Run(sts, x, |sts|).Ok? ==> Defined(k, Run(sts, x, |sts|).value, t))
  }

  /**
   * What `train` reports for layers in states sts: the forward pass's
   * error, or else the loss of its output against t.
   */
  ghost function Outcome(sts: seq<LayerState>, k: LossKind, x: Mat, t: Mat): Result<real>
    requires Trainable(sts, k, x, t)
  {
    var y := Run(sts, x, |sts|);
    if y.Err? then Err(y.msg) else LossValue(k, y.value, t)
  }

  class NeuralNetwork {
    const layers: seq<Layer>
    const optimizer: Optimizer
    const loss: LossKind
    const configs: seq<LayerConfig>
    const inputShape: Layers.Dims

    /**
     * One layer per configuration, each made for the shape its predecessor
     * passes on; distinct layer objects; and an optimizer whose caches, if
     * any, are shaped like the parameters.
     */
    ghost predicate Valid()
      reads this, Objs(layers), optimizer.Obj()
    {
      Built(layers, configs, inputShape) && Distinct(layers) && AllValid(layers) &&
      optimizer.Valid() && optimizer.Snapshot().Ready(ParametersOf(layers))
    }

    /** The objects the network owns. */
    ghost function Repr(): set<object>
      reads this
    {
      Objs(layers) + {optimizer.Obj()}
    }

    function Parameters(): seq<Mat>
      reads this, Objs(layers)
    {
      ParametersOf(layers)
    }

    function Gradients(): seq<Mat>
      reads this, Objs(layers)
    {
      GradientsOf(layers)
    }

    ghost function States(): seq<LayerState>
      requires AllValid(layers)
      reads this, Objs(layers)
    {
      StatesOf(layers)
    }

    /** The network `build` assembles. */
    constructor Assemble(cs: seq<LayerConfig>, s: Layers.Dims, ls: seq<Layer>, opt: Optimizer, k: LossKind)
      requires Built(ls, cs, s) && Distinct(ls) && AllValid(ls)
      requires opt.Valid() && opt.Snapshot().Ready(ParametersOf(ls))
      ensures Valid()
      ensures configs == cs && inputShape == s && layers == ls && optimizer == opt && loss == k
    {
      ghost var ps, sn := ParametersOf(ls), opt.Snapshot();
      configs, inputShape := cs, s;
      layers, optimizer, loss := ls, opt, k;
      new;
      assert this !in Objs(ls);
      assert ParametersOf(layers) == ps;
      assert optimizer.Snapshot() == sn;
    }

    /** `predict`: the layers' forward passes without caching, folded over the input in order. */
    method Predict(x: Mat) returns (r: Result<Mat>)
      requires Valid() && Wf(x)
      modifies Objs(layers)
      ensures Valid() && Parameters() == old(Parameters())
      ensures r == Run(old(States()), x, |layers|)
    {
      var ls, opt := layers, optimizer;
      NetApart(this, opt, ls);
      Apart(opt, ls);
      ghost var sts, sn0 := StatesOf(ls), opt.Snapshot();
      KeptAll(ls);
      KeptParams(ls, sts);
      ghost var ins;
      r, ins := ForwardAll(ls, x, false, sts);
      KeptValid(ls, sts);
      KeptParams(ls, sts);
      assert unchanged(opt.Obj());
      assert opt.Snapshot() == sn0;
    }

    /**
     * Writes new parameter values through the `getParameters()` pointers:
     * each matrix takes the value at its position in next, of its own shape.
     */
    method Store(next: seq<Mat>)
      requires Valid() && Fitting(Parameters(), next) && AllWf(next)
      modifies Objs(layers)
      ensures Valid() && Parameters() == next && Gradients() == old(Gradients())
    {
      var ls, opt := layers, optimizer;
      NetApart(this, opt, ls);
      Apart(opt, ls);
      ghost var sn := opt.Snapshot();
      ReadyFitting(sn, ParametersOf(ls), next);
      WriteBack(ls, next);
      assert unchanged(opt.Obj());
      assert opt.Snapshot() == sn;
    }

    /**
     * `train`: forward with caching, the loss and its gradient, backward in
     * reverse order, then one optimizer step over all parameters. The loss
     * reported is the loss of what `predict` would have returned; when
     * anything throws, the parameters and the optimizer are untouched,
     * and otherwise they are stepped with the gradients the backward
     * pass left.
     */
    method Train(x: Mat, target: Mat) returns (r: Result<real>)
      requires Valid() && Trainable(States(), loss, x, target)
      modifies Objs(layers), optimizer.Obj()
      ensures Valid()
      ensures r.Ok? ==> r == Outcome(old(States()), loss, x, target)
      ensures Outcome(old(States()), loss, x, target).Err? ==> r == Outcome(old(States()), loss, x, target)
      ensures r.Err? ==> Parameters() == old(Parameters()) && optimizer.Snapshot() == old(optimizer.Snapshot())
      ensures r.Ok? ==> Updated(old(optimizer.Snapshot()), old(Parameters()), Gradients(), optimizer.Snapshot(), Parameters())
    {
      var ls, opt := layers, optimizer;
      NetApart(this, opt, ls);
      r := TrainLayers(ls, opt, loss, configs, inputShape, x, target, States());
    }

    /**
     * `clone`: a new network built from the same input shape and
     * configurations, with mean squared error and a fresh SGD at rate
     * 0.01, whose layers then take this network's parameters. A zero input
     * shape ends the program instead.
     */
    method Clone() returns (r: Result<NeuralNetwork>)
      requires Valid()
      ensures r.Err? <==> inputShape.depth == 0 && inputShape.height == 0
      ensures r.Ok? ==> fresh(r.value) && fresh(r.value.Repr()) && r.value.Valid()
      ensures r.Ok? ==> r.value.configs == configs && r.value.inputShape == inputShape
      ensures r.Ok? ==> r.value.Parameters() == old(Parameters())
      ensures r.Ok? ==> r.value.loss == MeanSquared && r.value.optimizer.Snapshot() == SgdSettings(0.01)
    {
      if inputShape.depth == 0 && inputShape.height == 0 {
        return Err("clone called with a zero input shape");
      }
      var copy := CloneOf(layers, configs, inputShape);
      r := Ok(copy);
    }
  }

  /**
   * `clone` on the layers of a network built from cs on s: the parameter
   * values the copy loop reads from src, a rebuilt network, and the copy.
   */
  method CloneOf(src: seq<Layer>, cs: seq<LayerConfig>, s: Layers.Dims) returns (copy: NeuralNetwork)
    requires Built(src, cs, s) && AllValid(src)
    ensures fresh(copy) && fresh(copy.Repr()) && copy.Valid()
    ensures copy.configs == cs && copy.inputShape == s && copy.Parameters() == old(ParametersOf(src))
    ensures copy.loss == MeanSquared && copy.optimizer.Snapshot() == SgdSettings(0.01)
  {
    var pss := ParamLists(src);
    SourceFits(src, cs, s);
    copy := Rebuild(cs, s);
    Adopt(copy, pss, cs, s);
  }

  /** The parameters of layers built from cs on s have the shapes of the ones a fresh build starts with. */
  lemma SourceFits(src: seq<Layer>, cs: seq<LayerConfig>, s: Layers.Dims)
    requires Built(src, cs, s) && AllValid(src)
    ensures forall k :: 0 <= k < |src| ==> Fitting(InitialAt(cs, s, k), src[k].Parameters()) && AllWf(src[k].Parameters())
  {
    forall k | 0 <= k < |src| ensures Fitting(InitialAt(cs, s, k), src[k].Parameters()) && AllWf(src[k].Parameters()) {
      assert BuiltAt(src, cs, s, k);
      BuildablePrefix(cs, s, k, |cs|);
      InitialShapes(src[k], cs[k], ShapeAt(cs, s, k));
      assert src[k].State().Sane();
    }
  }

  /**
   * The first half of `clone`: a builder for shape s, given the
   * configurations cs one by one, mean squared error and a fresh SGD at
   * rate 0.01, builds.
   */
  method Rebuild(cs: seq<LayerConfig>, s: Layers.Dims) returns (copy: NeuralNetwork)
    requires Buildable(cs, s)
    ensures fresh(copy) && fresh(copy.Repr()) && copy.Valid()
    ensures copy.configs == cs && copy.inputShape == s
    ensures copy.loss == MeanSquared && copy.optimizer.Snapshot() == SgdSettings(0.01)
    ensures forall k :: 0 <= k < |copy.layers| ==> copy.layers[k].Parameters() == InitialAt(cs, s, k)
  {
    var builder := CloneBuilder(cs, s);
    copy := builder.Build();
  }

  /** The builder `clone` sets up before it builds. */
  method CloneBuilder(cs: seq<LayerConfig>, s: Layers.Dims) returns (builder: NeuralNetworkBuilder)
    ensures fresh(builder) && builder.configs == cs && builder.inputShape == s && builder.loss == Some(MeanSquared)
    ensures builder.optimizer.Some? && fresh(builder.optimizer.value.Obj()) && builder.optimizer.value.Valid()
    ensures builder.optimizer.value.Snapshot() == SgdSettings(0.01)
  {
    builder := new NeuralNetworkBuilder.Create(s);
    var i := 0;
    while i < |cs|
      invariant 0 <= i <= |cs| && builder.configs == cs[..i] && builder.inputShape == s
      invariant builder.optimizer.Some? && fresh(builder.optimizer.value.Obj())
    {
      builder.Add(cs[i]);
      assert cs[..i + 1] == cs[..i] + [cs[i]];
      i := i + 1;
    }
    assert cs[..i] == cs;
    builder.SetLossFunction(MeanSquared);
    var sgd := new Optimizers.SGD(0.01);
    builder.SetOptimizer(Sgd(sgd));
  }

  /**
   * `train` on the layers, the optimizer and the loss of a network built
   * from configurations cs on input shape s.
   */
  method TrainLayers(ls: seq<Layer>, opt: Optimizer, k: LossKind, ghost cs: seq<LayerConfig>, ghost s: Layers.Dims,
                     x: Mat, target: Mat, ghost sts: seq<LayerState>) returns (r: Result<real>)
    requires Built(ls, cs, s) && Distinct(ls) && AllValid(ls) && opt.Valid() && opt.Snapshot().Ready(ParametersOf(ls))
    requires sts == StatesOf(ls) && Trainable(sts, k, x, target)
    modifies Objs(ls), opt.Obj()
    ensures AllValid(ls) && opt.Valid() && opt.Snapshot().Ready(ParametersOf(ls))
    ensures r.Ok? ==> r == Outcome(sts, k, x, target)
    ensures Outcome(sts, k, x, target).Err? ==> r == Outcome(sts, k, x, target)
    ensures r.Err? ==> ParametersOf(ls) == old(ParametersOf(ls)) && opt.Snapshot() == old(opt.Snapshot())
    ensures r.Ok? ==> Updated(old(opt.Snapshot()), old(ParametersOf(ls)), GradientsOf(ls), opt.Snapshot(), ParametersOf(ls))
  {
    Apart(opt, ls);
    ghost var ps0, sn0 := ParametersOf(ls), opt.Snapshot();
    KeptAll(ls);
    KeptParams(ls, sts);
    var fw, ins := ForwardAll(ls, x, true, sts);
    KeptParams(ls, sts);
    KeptValid(ls, sts);
    assert unchanged(opt.Obj());
    assert ParametersOf(ls) == ps0 && opt.Snapshot() == sn0;
    if fw.Err? {
      return Err(fw.msg);
    }
    var lossValue := LossValue(k, fw.value, target);
    if lossValue.Err? {
      return Err(lossValue.msg);
    }
    var bw := Backpropagate(ls, k, cs, s, x, fw.value, target, sts, ins);
    assert unchanged(opt.Obj());
    assert ParametersOf(ls) == ps0 && opt.Snapshot() == sn0;
    if bw.Err? {
      return Err(bw.msg);
    }
    r := Learn(ls, opt, lossValue.value);
  }

  /**
   * Steps 2 and 3 of `train`: the gradient of the loss of the output y,
   * carried back through the layers in reverse order.
   */
  method Backpropagate(ls: seq<Layer>, k: LossKind, ghost cs: seq<LayerConfig>, ghost s: Layers.Dims,
                       x: Mat, y: Mat, target: Mat, ghost sts: seq<LayerState>, ghost ins: seq<Mat>)
    returns (r: Result<Mat>)
    requires Built(ls, cs, s) && Distinct(ls) && Wf(x) && Wf(target) && |sts| == |ls| && AllSane(sts)
    requires |ins| == |ls| + 1 && forall j :: 0 <= j <= |ls| ==> Run(sts, x, j) == Ok(ins[j])
    requires forall j :: 0 <= j < |ls| ==> Kept(ls[j], sts[j]) && ls[j].Primed(ins[j], ins[j + 1])
    requires y == ins[|ls|] && Wf(y) && Defined(k, y, target) && LossValue(k, y, target).Ok?
    modifies Objs(ls)
    ensures AllValid(ls) && StatesOf(ls) == sts && ParamLists(ls) == StateParams(sts)
    ensures r.Ok? ==> forall j :: 0 <= j < |ls| ==> ls[j].GradsFit()
  {
    var error := LossGradient(k, y, target);
    GradientShaped(k, y, target);
    WidthsAgree(ls, cs, s, sts, x, ins);
    r := BackwardAll(ls, error, sts, ins);
    KeptValid(ls, sts);
    KeptParams(ls, sts);
  }

  /** Step 4 of `train`: every parameter with its gradient to the optimizer, and the result back into the layers. */
  method Learn(ls: seq<Layer>, opt: Optimizer, lossValue: real) returns (r: Result<real>)
    requires AllValid(ls) && Distinct(ls) && forall k :: 0 <= k < |ls| ==> ls[k].GradsFit()
    requires opt.Valid() && opt.Snapshot().Ready(ParametersOf(ls))
    modifies Objs(ls), opt.Obj()
    ensures r == Ok(lossValue) && AllValid(ls) && opt.Valid()
    ensures opt.Snapshot().Ready(ParametersOf(ls))
    ensures Updated(old(opt.Snapshot()), old(ParametersOf(ls)), GradientsOf(ls), opt.Snapshot(), ParametersOf(ls))
  {
    Apart(opt, ls);
    var next := StepAll(ls, opt);
    ghost var sn := opt.Snapshot();
    label Stepped:
    WriteBack(ls, next);
    assert unchanged@Stepped(opt.Obj());
    assert opt.Snapshot() == sn;
    r := Ok(lossValue);
  }

  /** `optimizer->update(all_params, all_grads)`: the layers are left alone, the optimizer steps. */
  method StepAll(ls: seq<Layer>, opt: Optimizer) returns (next: seq<Mat>)
    requires AllValid(ls) && forall k :: 0 <= k < |ls| ==> ls[k].GradsFit()
    requires opt.Valid() && opt.Snapshot().Ready(ParametersOf(ls))
    modifies opt.Obj()
    ensures AllValid(ls) && opt.Valid()
    ensures ParametersOf(ls) == old(ParametersOf(ls)) && GradientsOf(ls) == old(GradientsOf(ls))
    ensures Fitting(old(ParametersOf(ls)), old(GradientsOf(ls))) && AllWf(old(GradientsOf(ls))) && AllWf(old(ParametersOf(ls)))
    ensures Fitting(old(ParametersOf(ls)), next) && AllWf(next)
    ensures next == Stepped(old(opt.Snapshot()), old(ParametersOf(ls)), old(GradientsOf(ls)))
    ensures opt.Snapshot() == Advanced(old(opt.Snapshot()), old(ParametersOf(ls)), old(GradientsOf(ls)))
    ensures opt.Snapshot().Ready(next)
  {
    Apart(opt, ls);
    var ps, gs := ParametersOf(ls), GradientsOf(ls);
    GradientsFit(ls);
    ghost var st := opt.Snapshot();
    next := Step(opt, ps, gs);
    assert unchanged(Objs(ls));
    SteppedFits(st, ps, gs);
  }

  // --------------------------------------------------------------- building

  /** The parameters layer k of a network built from cs on s starts with. */
  ghost function InitialAt(cs: seq<LayerConfig>, s: Layers.Dims, k: nat): seq<Mat>
    requires Buildable(cs, s) && k < |cs|
  {
    BuildablePrefix(cs, s, k, |cs|);
    InitialParams(cs[k], ShapeAt(cs, s, k))
  }

  /** The loop of `build`: one new layer per configuration, each made for the shape the previous one produces. */
  method CreateAll(cs: seq<LayerConfig>, s: Layers.Dims) returns (ls: seq<Layer>)
    requires Buildable(cs, s)
    ensures fresh(Objs(ls)) && Built(ls, cs, s) && Distinct(ls) && AllValid(ls)
    ensures forall k :: 0 <= k < |ls| ==> ls[k].Parameters() == InitialAt(cs, s, k)
  {
    ls := [];
    var shape := s;
    var i := 0;
    while i < |cs|
      invariant 0 <= i <= |cs| && |ls| == i && shape == ShapeAt(cs, s, i)
      invariant fresh(Objs(ls)) && Distinct(ls) && AllValid(ls)
      invariant forall k :: 0 <= k < i ==> BuiltAt(ls, cs, s, k) && ls[k].Parameters() == InitialAt(cs, s, k)
    {
      ls, shape := CreateNext(ls, cs, s, shape);
      i := i + 1;
    }
  }

  /** One turn of the loop of `build`: the layer for configuration |ls|, made for the current shape, and the shape it passes on. */
  method CreateNext(ls: seq<Layer>, cs: seq<LayerConfig>, ghost s: Layers.Dims, shape: Layers.Dims)
    returns (ms: seq<Layer>, next: Layers.Dims)
    requires |ls| < |cs| && Buildable(cs, s) && shape == ShapeAt(cs, s, |ls|) && Distinct(ls) && AllValid(ls)
    requires forall k :: 0 <= k < |ls| ==> BuiltAt(ls, cs, s, k) && ls[k].Parameters() == InitialAt(cs, s, k)
    ensures |ms| == |ls| + 1 && next == ShapeAt(cs, s, |ms|) && fresh(Objs(ms) - Objs(ls)) && Distinct(ms) && AllValid(ms)
    ensures forall k :: 0 <= k < |ms| ==> BuiltAt(ms, cs, s, k) && ms[k].Parameters() == InitialAt(cs, s, k)
  {
    BuildablePrefix(cs, s, |ls|, |cs|);
    BuildablePrefix(cs, s, |ls| + 1, |cs|);
    label Grown:
    var l;
    l, next := Create(cs[|ls|], shape);
    assert unchanged@Grown(Objs(ls));
    ms := Appended(ls, l, cs, s);
  }

  /** The list grown by one fresh layer made for configuration |ls|, with the earlier layers as they were. */
  method Appended(ls: seq<Layer>, l: Layer, ghost cs: seq<LayerConfig>, ghost s: Layers.Dims) returns (ms: seq<Layer>)
    requires |ls| < |cs| && Buildable(cs, s) && l.Obj() !in Objs(ls) && Distinct(ls) && AllValid(ls) && l.Valid()
    requires forall k :: 0 <= k < |ls| ==> BuiltAt(ls, cs, s, k) && ls[k].Parameters() == InitialAt(cs, s, k)
    requires l.Matches(cs[|ls|], ShapeAt(cs, s, |ls|)) && l.Parameters() == InitialAt(cs, s, |ls|)
    ensures ms == ls + [l] && Objs(ms) == Objs(ls) + {l.Obj()} && Distinct(ms) && AllValid(ms)
    ensures forall k :: 0 <= k < |ms| ==> BuiltAt(ms, cs, s, k) && ms[k].Parameters() == InitialAt(cs, s, k)
  {
    ms := ls + [l];
    assert forall i :: 0 <= i < |ls| ==> ms[i] == ls[i];
    assert Objs(ms) == Objs(ls) + {l.Obj()} by {
      assert ms[|ls|] == l;
    }
  }

  class NeuralNetworkBuilder {
    var inputShape: Layers.Dims
    var configs: seq<LayerConfig>
    var optimizer: Option<Optimizer>
    var loss: Option<LossKind>

    /** `NeuralNetworkBuilder::create(shape)`: no layers yet, SGD at rate 0.01 and mean squared error. */
    constructor Create(shape: Layers.Dims)
      ensures inputShape == shape && configs == [] && loss == Some(MeanSquared)
      ensures optimizer.Some? && fresh(optimizer.value.Obj()) && optimizer.value.Valid()
      ensures optimizer.value.Snapshot() == SgdSettings(0.01)
    {
      inputShape := shape;
      configs := [];
      var sgd := new Optimizers.SGD(0.01);
      optimizer := Some(Sgd(sgd));
      loss := Some(MeanSquared);
    }

    /** `add`: one more layer configuration at the end. */
    method Add(c: LayerConfig)
      modifies this
      ensures configs == old(configs) + [c]
      ensures inputShape == old(inputShape) && optimizer == old(optimizer) && loss == old(loss)
    {
      configs := configs + [c];
    }

    /** `setOptimizer`: the optimizer the network will own, replacing the previous one. */
    method SetOptimizer(opt: Optimizer)
      modifies this
      ensures optimizer == Some(opt)
      ensures inputShape == old(inputShape) && configs == old(configs) && loss == old(loss)
    {
      optimizer := Some(opt);
    }

    /** `setLossFunction`: the loss the network will use, replacing the previous one. */
    method SetLossFunction(k: LossKind)
      modifies this
      ensures loss == Some(k)
      ensures inputShape == old(inputShape) && configs == old(configs) && optimizer == old(optimizer)
    {
      loss := Some(k);
    }

    /**
     * `build`: a network that takes over the configurations, the optimizer
     * and the loss (leaving the builder without them) and holds one freshly
     * initialised layer per configuration.
     */
    method Build() returns (net: NeuralNetwork)
      requires optimizer.Some? && loss.Some? && Buildable(configs, inputShape)
      requires optimizer.value.Valid() && Unused(optimizer.value.Snapshot())
      modifies this
      ensures fresh(net) && fresh(Objs(net.layers)) && net.Valid()
      ensures net.configs == old(configs) && net.inputShape == old(inputShape)
      ensures net.optimizer == old(optimizer.value) && net.loss == old(loss.value)
      ensures forall k :: 0 <= k < |net.layers| ==> net.layers[k].Parameters() == InitialAt(net.configs, net.inputShape, k)
      ensures configs == [] && optimizer == None && loss == None && inputShape == old(inputShape)
    {
      var cs, s, opt, k := configs, inputShape, optimizer.value, loss.value;
      BuilderApart(this, opt);
      configs, optimizer, loss := [], None, None;
      net := BuildNetwork(cs, s, opt, k);
    }
  }

  /** The network `build` returns: fresh layers for cs on s, with the given optimizer and loss. */
  method BuildNetwork(cs: seq<LayerConfig>, s: Layers.Dims, opt: Optimizer, k: LossKind) returns (net: NeuralNetwork)
    requires Buildable(cs, s) && opt.Valid() && Unused(opt.Snapshot())
    ensures fresh(net) && fresh(Objs(net.layers)) && net.Valid()
    ensures net.configs == cs && net.inputShape == s && net.optimizer == opt && net.loss == k
    ensures forall i :: 0 <= i < |net.layers| ==> net.layers[i].Parameters() == InitialAt(cs, s, i)
  {
    var ls := CreateAll(cs, s);
    Apart(opt, ls);
    net := new NeuralNetwork.Assemble(cs, s, ls, opt, k);
  }

  /** The copy loop of `clone` run on a freshly built network: its layers take the parameter values pss. */
  method Adopt(copy: NeuralNetwork, pss: seq<seq<Mat>>, ghost cs: seq<LayerConfig>, ghost s: Layers.Dims)
    requires copy.Valid() && copy.configs == cs && copy.inputShape == s && copy.optimizer.Snapshot().SgdSettings?
    requires |pss| == |copy.layers|
    requires forall k :: 0 <= k < |pss| ==> Fitting(copy.layers[k].Parameters(), pss[k]) && AllWf(pss[k])
    modifies Objs(copy.layers)
    ensures copy.Valid() && copy.Parameters() == Concat(pss)
    ensures copy.optimizer.Snapshot() == old(copy.optimizer.Snapshot())
  {
    var dst, opt := copy.layers, copy.optimizer;
    Apart(opt, dst);
    NetApart(copy, opt, dst);
    ghost var sn := opt.Snapshot();
    CopyParams(pss, dst);
    assert opt.Snapshot() == sn;
  }

  /** The copy loop of `clone`: layer i of dst takes the parameter values pss[i]. */
  method CopyParams(pss: seq<seq<Mat>>, dst: seq<Layer>)
    requires AllValid(dst) && Distinct(dst) && |pss| == |dst|
    requires forall k :: 0 <= k < |pss| ==> Fitting(dst[k].Parameters(), pss[k]) && AllWf(pss[k])
    modifies Objs(dst)
    ensures AllValid(dst) && ParamLists(dst) == pss
  {
    ghost var qss, gss := ParamLists(dst), GradLists(dst);
    var i := 0;
    while i < |dst|
      invariant 0 <= i <= |dst|
      invariant forall k :: 0 <= k < i ==> Holding(dst[k], pss[k], gss[k])
      invariant forall k :: i <= k < |dst| ==> Holding(dst[k], qss[k], gss[k])
    {
      StoreStep(dst, i, pss[i], qss, pss, gss);
      i := i + 1;
    }
  }
}
