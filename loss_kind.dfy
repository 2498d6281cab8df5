// The loss a network holds (`std::unique_ptr<loss::Loss>` in
// include/talawa-ai/neuralnetwork/Loss.hpp): one of the losses of
// src/neuralnetwork/Loss.cpp, or the `EmptyLoss` whose loss is 0 and whose
// gradient is a zero matrix of the prediction's shape. The training loop
// calls `calculate` and then `gradient`; `Evaluate` does the same and
// returns both, or the error the first one throws.
module LossKinds {
  import opened Common
  import opened MatrixSpec
  import Losses

  datatype LossKind = MeanSquared | CrossEntropy | CategoricalCrossEntropy | CrossEntropyWithLogits | Empty

  /**
   * What `calculate` and `gradient` need beyond the cases in which they
   * throw: a division by a cell or row count that is not zero, and a
   * logits target read through its raw buffer that has the prediction's
   * shape wherever the bounds-checked loss did not already throw.
   */
  ghost predicate Defined(k: LossKind, p: Mat, t: Mat)
  {
    match k
    case MeanSquared => Losses.HasCells(p)
    case CrossEntropy => p.rows > 0
    case CategoricalCrossEntropy => p.rows > 0
    case CrossEntropyWithLogits =>
      p.rows > 0 && (p.cols > 0 && Losses.Covers(p, t) ==> t.rows == p.rows && t.cols == p.cols)
    case Empty => true
  }

  /** `loss_fn->calculate(p, t)`. */
  function LossValue(k: LossKind, p: Mat, t: Mat): (r: Result<real>)
    requires Wf(p) && Wf(t) && Defined(k, p, t)
  {
    match k
    case MeanSquared => Losses.MseLoss(p, t)
    case CrossEntropy => Losses.CrossEntropyLoss(p, t)
    case CategoricalCrossEntropy => Losses.CategoricalLoss(p, t)
    case CrossEntropyWithLogits =>
      if p.cols == 0 || !Losses.Covers(p, t) then Err("Matrix indices out of bounds")
      else Ok(Losses.LogitsTotal(p, t, p.rows) / p.rows as real)
    case Empty => Ok(0.0)
  }

  /**
   * `loss_fn->gradient(p, t)`, after a `calculate` that did not throw. The
   * MSE, cross-entropy and categorical cases are the corrected gradients, not
   * the as-written ones `Losses` also defines.
   */
  function LossGradient(k: LossKind, p: Mat, t: Mat): (r: Mat)
    requires Wf(p) && Wf(t) && Defined(k, p, t) && LossValue(k, p, t).Ok?
  {
    match k
    case MeanSquared => Losses.MseGradient(p, t).value
    case CrossEntropy => Losses.CrossEntropyGradient(p, t).value
    case CategoricalCrossEntropy => Losses.CategoricalGradient(p, t).value
    case CrossEntropyWithLogits =>
      Tabulate(p.rows, p.cols, (i, j) => if 0 <= i < p.rows && 0 <= j < p.cols then Losses.LogitsGradCell(p, t, i, j) else 0.0)
    case Empty => Zeros(p.rows, p.cols)
  }

  /**
   * On a prediction with cells, every loss but the empty one throws exactly
   * when the target does not cover the prediction; whenever `calculate`
   * succeeds, the gradient has the prediction's shape.
   */
  lemma GradientShaped(k: LossKind, p: Mat, t: Mat)
    requires Wf(p) && Wf(t) && Defined(k, p, t)
    ensures Losses.HasCells(p) ==> (LossValue(k, p, t).Err? <==> k != Empty && !Losses.Covers(p, t))
    ensures LossValue(k, p, t).Ok? ==>
      var g := LossGradient(k, p, t);
      Wf(g) && g.rows == p.rows && g.cols == p.cols
  {
  }

  /** The loss and its gradient, computed as the training loop computes them. */
  method Evaluate(k: LossKind, p: Mat, t: Mat) returns (r: Result<(real, Mat)>)
    requires Wf(p) && Wf(t) && Defined(k, p, t)
    ensures r.Err? <==> LossValue(k, p, t).Err?
    ensures r.Ok? ==> r.value == (LossValue(k, p, t).value, LossGradient(k, p, t))
  {
    match k {
      case MeanSquared =>
        var v := Losses.MseLoss(p, t);
        if v.Err? { return Err(v.msg); }
        r := Ok((v.value, Losses.MseGradient(p, t).value));
      case CrossEntropy =>
        var v := Losses.CrossEntropyLoss(p, t);
        if v.Err? { return Err(v.msg); }
        r := Ok((v.value, Losses.CrossEntropyGradient(p, t).value));
      case CategoricalCrossEntropy =>
        var v := Losses.CategoricalLoss(p, t);
        if v.Err? { return Err(v.msg); }
        r := Ok((v.value, Losses.CategoricalGradient(p, t).value));
      case CrossEntropyWithLogits =>
        var v := Losses.LogitsLoss(p, t);
        if v.Err? { return Err(v.msg); }
        var g := Losses.LogitsGradient(p, t);
        Ext(g, LossGradient(k, p, t));
        r := Ok((v.value, g));
      case Empty =>
        r := Ok((0.0, Zeros(p.rows, p.cols)));
    }
  }
}
