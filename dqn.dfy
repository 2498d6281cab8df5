// The rules of the DQN agent of src/rl/DQNAgent.cpp that do not live in the
// network: action selection (random among the valid actions when exploring,
// otherwise the first best Q per row after masked-out actions are pushed to
// -1e9), the training targets (the online network's Q, with the taken
// action's cell replaced by the reward plus, unless the episode ended, γ
// times the target network's Q at the online network's best next action),
// the gate deciding when `update` trains, and the target network's hard or
// soft update.
module DQN {
  import opened Common
  import opened MatrixSpec
  import opened NeuralNetworks
  import opened Networks
  import Replay
  import Spaces

  /** The value a masked-out action's Q is replaced by: `-1e9f`. */
  const MaskedQ: real := -1000000000.0

  const OutOfBounds: string := "Matrix indices out of bounds"

  // --------------------------------------------------------------- argmax

  /** The scan over the first n cells of row i keeping the first strictly larger one: its column. */
  function ArgMax(q: Mat, i: int, n: int): (b: int)
    requires Wf(q) && 0 <= i < q.rows && 0 <= n <= q.cols
    ensures 0 <= b && (n > 0 ==> b < n) && (n == 0 ==> b == 0)
  {
    if n <= 1 then 0
    else
      var b := ArgMax(q, i, n - 1);
      if Get(q, i, n - 1) > Get(q, i, b) then n - 1 else b
  }

  /** The scan finds the first column holding the row's maximum. */
  lemma {:induction false} ArgMaxIsFirstMax(q: Mat, i: int, n: int)
    requires Wf(q) && 0 <= i < q.rows && 0 < n <= q.cols
    ensures forall j :: 0 <= j < n ==> Get(q, i, j) <= Get(q, i, ArgMax(q, i, n))
    ensures forall j :: 0 <= j < ArgMax(q, i, n) ==> Get(q, i, j) < Get(q, i, ArgMax(q, i, n))
  {
    if n > 1 {
      ArgMaxIsFirstMax(q, i, n - 1);
    }
  }

  // ---------------------------------------------------------- acting

  /** Cell (i, j) of the mask allows the action; with no mask every action is allowed. */
  predicate Allowed(mask: Option<Mat>, i: int, j: int)
    requires mask.Some? ==> Wf(mask.value) && 0 <= i < mask.value.rows && 0 <= j < mask.value.cols
  {
    mask.None? || Get(mask.value, i, j) != 0.0
  }

  /** Every cell of a rows x cols matrix can be read from the mask. */
  predicate MaskCovers(mask: Option<Mat>, rows: int, cols: int)
  {
    mask.None? || (rows <= mask.value.rows && cols <= mask.value.cols)
  }

  /** The valid actions of row i among the first n columns, in increasing order. */
  function ValidActions(mask: Option<Mat>, i: int, n: int): (vs: seq<int>)
    requires 0 <= n && (mask.Some? ==> Wf(mask.value) && (n > 0 ==> 0 <= i < mask.value.rows && n <= mask.value.cols))
    ensures forall k :: 0 <= k < |vs| ==> 0 <= vs[k] < n && Allowed(mask, i, vs[k])
    ensures forall j :: 0 <= j < n && Allowed(mask, i, j) ==> j in vs
  {
    if n == 0 then []
    else ValidActions(mask, i, n - 1) + (if Allowed(mask, i, n - 1) then [n - 1] else [])
  }

  /** The inner loop of the explore branch: row i's valid actions, unless the mask is too small to read. */
  method CollectValid(mask: Option<Mat>, i: nat, cols: nat) returns (valid: seq<int>, read: bool)
    requires mask.Some? ==> Wf(mask.value)
    ensures read <==> cols == 0 || MaskCovers(mask, i + 1, cols)
    ensures read ==> valid == ValidActions(mask, i, cols)
  {
    valid := [];
    var j := 0;
    while j < cols
      invariant 0 <= j <= cols
      invariant mask.Some? && j > 0 ==> i < mask.value.rows && j <= mask.value.cols
      invariant valid == ValidActions(mask, i, j)
    {
      if mask.Some? && (i >= mask.value.rows || j >= mask.value.cols) {
        return [], false;
      }
      if mask.None? || Get(mask.value, i, j) != 0.0 {
        valid := valid + [j];
      }
      j := j + 1;
    }
    read := true;
  }

  /**
   * The explore branch of `act`: for each row, the list of valid actions,
   * an error when it is empty, else the one the row's draw picks. A mask
   * smaller than the Q matrix throws at its first out-of-range read.
   */
  method Explore(rows: nat, cols: nat, mask: Option<Mat>, draws: nat -> nat) returns (r: Result<Mat>)
    requires mask.Some? ==> Wf(mask.value)
    ensures MaskCovers(mask, rows, cols) ==>
      (r.Ok? <==> forall i :: 0 <= i < rows ==> |ValidActions(mask, i, cols)| > 0)
    ensures !MaskCovers(mask, rows, cols) && rows > 0 && cols > 0 ==> r.Err?
    ensures r.Ok? && rows > 0 ==> cols > 0 && MaskCovers(mask, rows, cols)
    ensures r.Ok? ==> Wf(r.value) && r.value.rows == rows && r.value.cols == 1
    ensures r.Ok? ==> forall i :: 0 <= i < rows ==>
      var vs := ValidActions(mask, i, cols);
      |vs| > 0 && Get(r.value, i, 0) == vs[draws(i) % |vs|] as real
  {
    var actions := Zeros(rows, 1);
    var i := 0;
    while i < rows
      invariant 0 <= i <= rows && Wf(actions) && actions.rows == rows && actions.cols == 1
      invariant i > 0 ==> cols > 0 && MaskCovers(mask, i, cols)
      invariant forall k :: 0 <= k < i ==>
        var vs := ValidActions(mask, k, cols);
        |vs| > 0 && Get(actions, k, 0) == vs[draws(k) % |vs|] as real
      invariant MaskCovers(mask, rows, cols) ==> forall k :: 0 <= k < i ==> |ValidActions(mask, k, cols)| > 0
    {
      var valid, read := CollectValid(mask, i, cols);
      if !read {
        return Err(OutOfBounds);
      }
      if |valid| == 0 {
        return Err("[DQNAgent::act] ERROR: No valid actions available.");
      }
      actions := Set(actions, i, 0, valid[draws(i) % |valid|] as real);
      i := i + 1;
    }
    r := Ok(actions);
  }

  /** Q with every masked-out cell replaced by -1e9. */
  function Masked(q: Mat, mask: Mat): (m: Mat)
    requires Wf(q) && Wf(mask) && q.rows <= mask.rows && q.cols <= mask.cols
    ensures Wf(m) && m.rows == q.rows && m.cols == q.cols
    ensures forall i, j :: 0 <= i < q.rows && 0 <= j < q.cols ==>
      Get(m, i, j) == if Get(mask, i, j) == 0.0 then MaskedQ else Get(q, i, j)
  {
    Tabulate(q.rows, q.cols, (i, j) =>
      if 0 <= i < q.rows && 0 <= j < q.cols then (if Get(mask, i, j) == 0.0 then MaskedQ else Get(q, i, j)) else 0.0)
  }

  /** The `forEach` applying the mask: row-major, throwing at the first cell the mask does not have. */
  method ApplyMask(q: Mat, mask: Mat) returns (r: Result<Mat>)
    requires Wf(q) && Wf(mask)
    ensures r.Err? <==> q.rows > 0 && q.cols > 0 && !(q.rows <= mask.rows && q.cols <= mask.cols)
    ensures r.Ok? && q.rows > 0 && q.cols > 0 ==> q.rows <= mask.rows && q.cols <= mask.cols && r.value == Masked(q, mask)
    ensures r.Ok? && (q.rows == 0 || q.cols == 0) ==> r.value == q
  {
    var m := q;
    var i := 0;
    while i < q.rows
      invariant 0 <= i <= q.rows && Wf(m) && m.rows == q.rows && m.cols == q.cols
      invariant q.cols > 0 && i > 0 ==> i <= mask.rows && q.cols <= mask.cols
      invariant forall k, j :: 0 <= k < q.rows && 0 <= j < q.cols ==>
        Get(m, k, j) == if k < i && Get(mask, k, j) == 0.0 then MaskedQ else Get(q, k, j)
    {
      var j := 0;
      while j < q.cols
        invariant 0 <= j <= q.cols && Wf(m) && m.rows == q.rows && m.cols == q.cols
        invariant j > 0 ==> i < mask.rows && j <= mask.cols
        invariant forall k, l :: 0 <= k < q.rows && 0 <= l < q.cols ==>
          Get(m, k, l) == if (k < i || (k == i && l < j)) && Get(mask, k, l) == 0.0 then MaskedQ else Get(q, k, l)
      {
        if i >= mask.rows || j >= mask.cols {
          return Err(OutOfBounds);
        }
        if Get(mask, i, j) == 0.0 {
          m := Set(m, i, 0 + j, MaskedQ);
        }
        j := j + 1;
      }
      i := i + 1;
    }
    if q.rows > 0 && q.cols > 0 {
      Ext(m, Masked(q, mask));
    } else {
      assert m.data == [] == q.data;
    }
    r := Ok(m);
  }

  /** The exploit loop of `act`: per row, the first column with the largest Q; a row without columns throws. */
  method GreedyActions(q: Mat) returns (r: Result<Mat>)
    requires Wf(q)
    ensures r.Err? <==> q.rows > 0 && q.cols == 0
    ensures r.Ok? ==> Wf(r.value) && r.value.rows == q.rows && r.value.cols == 1
    ensures r.Ok? ==> forall i :: 0 <= i < q.rows ==> Get(r.value, i, 0) == ArgMax(q, i, q.cols) as real
  {
    var actions := Zeros(q.rows, 1);
    var i := 0;
    while i < q.rows
      invariant 0 <= i <= q.rows && Wf(actions) && actions.rows == q.rows && actions.cols == 1
      invariant i > 0 ==> q.cols > 0
      invariant forall k :: 0 <= k < i ==> Get(actions, k, 0) == ArgMax(q, k, q.cols) as real
    {
      if q.cols == 0 {
        return Err(OutOfBounds);
      }
      var maxQ := Get(q, i, 0);
      var best := 0;
      var j := 1;
      while j < q.cols
        invariant 1 <= j <= q.cols && best == ArgMax(q, i, j) && maxQ == Get(q, i, best)
      {
        if Get(q, i, j) > maxQ {
          maxQ, best := Get(q, i, j), j;
        }
        j := j + 1;
      }
      actions := Set(actions, i, 0, best as real);
      i := i + 1;
    }
    r := Ok(actions);
  }

  /**
   * `act` on the network's prediction q: when exploring (the explorability
   * draw said EXPLORE and training is on), a random valid action per row;
   * otherwise the mask is applied and the first best action taken per row.
   */
  method Act(q: Result<Mat>, mask: Option<Mat>, exploring: bool, draws: nat -> nat) returns (r: Result<Mat>)
    requires q.Ok? ==> Wf(q.value)
    requires mask.Some? ==> Wf(mask.value)
    ensures q.Err? ==> r == Err(q.msg)
    ensures q.Ok? && r.Ok? ==> Wf(r.value) && r.value.rows == q.value.rows && r.value.cols == 1
    ensures q.Ok? && r.Ok? && q.value.rows > 0 ==> q.value.cols > 0 && MaskCovers(mask, q.value.rows, q.value.cols)
    ensures q.Ok? && exploring && MaskCovers(mask, q.value.rows, q.value.cols) ==>
      (r.Ok? <==> forall i :: 0 <= i < q.value.rows ==> |ValidActions(mask, i, q.value.cols)| > 0)
    ensures q.Ok? && exploring && r.Ok? ==> forall i :: 0 <= i < q.value.rows ==>
      var vs := ValidActions(mask, i, q.value.cols);
      |vs| > 0 && Get(r.value, i, 0) == vs[draws(i) % |vs|] as real
    ensures q.Ok? && !exploring && r.Ok? ==>
      var g := if mask.Some? && q.value.rows > 0 then Masked(q.value, mask.value) else q.value;
      forall i :: 0 <= i < q.value.rows ==> Get(r.value, i, 0) == ArgMax(g, i, g.cols) as real
    ensures q.Ok? && !exploring && MaskCovers(mask, q.value.rows, q.value.cols) ==>
      (r.Err? <==> q.value.rows > 0 && q.value.cols == 0)
  {
    if q.Err? {
      return Err(q.msg);
    }
    var qs := q.value;
    if exploring {
      r := Explore(qs.rows, qs.cols, mask, draws);
      return;
    }
    if mask.Some? {
      var m := ApplyMask(qs, mask.value);
      if m.Err? {
        return Err(m.msg);
      }
      qs := m.value;
    }
    r := GreedyActions(qs);
  }

  /**
   * The greedy choice respects the mask: when row i has an allowed action
   * and every Q in the row is above -1e9, the first best masked Q is an
   * allowed action.
   */
  lemma GreedyPicksAllowed(q: Mat, mask: Mat, i: int)
    requires Wf(q) && Wf(mask) && q.rows <= mask.rows && q.cols <= mask.cols && 0 <= i < q.rows
    requires exists j :: 0 <= j < q.cols && Get(mask, i, j) != 0.0
    requires forall j :: 0 <= j < q.cols ==> Get(q, i, j) > MaskedQ
    ensures Get(mask, i, ArgMax(Masked(q, mask), i, q.cols)) != 0.0
  {
    var m := Masked(q, mask);
    var j :| 0 <= j < q.cols && Get(mask, i, j) != 0.0;
    ArgMaxIsFirstMax(m, i, q.cols);
    var b := ArgMax(m, i, q.cols);
    assert Get(m, i, j) <= Get(m, i, b);
  }

  // ----------------------------------------------------------- targets

  /** `TrainableBatch`: the sampled transitions as matrices, one row per transition. */
  datatype Batch = Batch(states: Mat, nextStates: Mat, actions: Mat, rewards: Mat, dones: Mat)

  /** The column of first best next actions, as floats. */
  function BestNext(q: Mat): (b: Mat)
    requires Wf(q)
    ensures Wf(b) && b.rows == q.rows && b.cols == 1
    ensures forall i :: 0 <= i < q.rows ==> Get(b, i, 0) == ArgMax(q, i, q.cols) as real
  {
    Tabulate(q.rows, 1, (i, j) => if 0 <= i < q.rows then ArgMax(q, i, q.cols) as real else 0.0)
  }

  /**
   * The `forEach` choosing the best next actions: column 0 is taken first,
   * then any column whose Q beats the Q of the column held so far.
   */
  method ChooseBestNext(q: Mat) returns (b: Mat)
    requires Wf(q)
    ensures b == BestNext(q)
  {
    b := Zeros(q.rows, 1);
    var i := 0;
    while i < q.rows
      invariant 0 <= i <= q.rows && Wf(b) && b.rows == q.rows && b.cols == 1
      invariant forall k :: 0 <= k < i ==> Get(b, k, 0) == ArgMax(q, k, q.cols) as real
      invariant forall k :: i <= k < q.rows ==> Get(b, k, 0) == 0.0
    {
      var j := 0;
      while j < q.cols
        invariant 0 <= j <= q.cols && Wf(b) && b.rows == q.rows && b.cols == 1
        invariant forall k :: 0 <= k < i ==> Get(b, k, 0) == ArgMax(q, k, q.cols) as real
        invariant Get(b, i, 0) == ArgMax(q, i, j) as real
        invariant forall k :: i < k < q.rows ==> Get(b, k, 0) == 0.0
      {
        if j == 0 || Get(q, i, j) > Get(q, i, Trunc(Get(b, i, 0))) {
          b := Set(b, i, 0, j as real);
        }
        j := j + 1;
      }
      i := i + 1;
    }
    Ext(b, BestNext(q));
  }

  /**
   * Row i's future value after the first j columns of the target network's
   * Q were visited: the Q at the chosen column once it has been visited,
   * else the initial 0.
   */
  function FutureCell(qt: Mat, b: Mat, i: int, j: int): real
    requires Wf(qt) && Wf(b) && b.cols == 1 && 0 <= i < qt.rows && 0 <= j <= qt.cols && (j > 0 ==> i < b.rows)
  {
    if j > 0 && 0 <= Trunc(Get(b, i, 0)) < j then Get(qt, i, Trunc(Get(b, i, 0))) else 0.0
  }

  /** The future values: per row, the target network's Q at the chosen column, or 0 when that column does not exist. */
  function Future(qt: Mat, b: Mat): (f: Mat)
    requires Wf(qt) && Wf(b) && b.cols == 1 && (qt.cols > 0 ==> qt.rows <= b.rows)
    ensures Wf(f) && f.rows == qt.rows && f.cols == 1
    ensures forall i :: 0 <= i < qt.rows ==> Get(f, i, 0) == FutureCell(qt, b, i, qt.cols)
  {
    Tabulate(qt.rows, 1, (i, j) => if 0 <= i < qt.rows then FutureCell(qt, b, i, qt.cols) else 0.0)
  }

  /** The `forEach` reading the future values: every cell compares its column with its row's choice, throwing past b's rows. */
  method FutureValues(qt: Mat, b: Mat) returns (r: Result<Mat>)
    requires Wf(qt) && Wf(b) && b.cols == 1
    ensures r.Err? <==> qt.cols > 0 && qt.rows > b.rows
    ensures r.Ok? ==> r.value == Future(qt, b)
  {
    var f := Zeros(qt.rows, 1);
    var i := 0;
    while i < qt.rows
      invariant 0 <= i <= qt.rows && Wf(f) && f.rows == qt.rows && f.cols == 1
      invariant qt.cols > 0 ==> i <= b.rows
      invariant forall k :: 0 <= k < i ==> Get(f, k, 0) == FutureCell(qt, b, k, qt.cols)
      invariant forall k :: i <= k < qt.rows ==> Get(f, k, 0) == 0.0
    {
      var j := 0;
      while j < qt.cols
        invariant 0 <= j <= qt.cols && Wf(f) && f.rows == qt.rows && f.cols == 1
        invariant j > 0 ==> i < b.rows
        invariant forall k :: 0 <= k < i ==> Get(f, k, 0) == FutureCell(qt, b, k, qt.cols)
        invariant forall k :: i < k < qt.rows ==> Get(f, k, 0) == 0.0
        invariant Get(f, i, 0) == FutureCell(qt, b, i, j)
      {
        if i >= b.rows {
          return Err(OutOfBounds);
        }
        if j == Trunc(Get(b, i, 0)) {
          f := Set(f, i, 0, Get(qt, i, j));
        }
        j := j + 1;
      }
      i := i + 1;
    }
    Ext(f, Future(qt, b));
    r := Ok(f);
  }

  /**
   * Every read of the target map is in range: for each cell of q the
   * reward, done flag and action of its row, and the future value of a row
   * whose taken action is a column of q and whose episode goes on.
   */
  predicate Readable(q: Mat, f: Mat, batch: Batch)
    requires Wf(q) && Wf(f) && Wf(batch.actions) && Wf(batch.rewards) && Wf(batch.dones)
  {
    q.rows == 0 || q.cols == 0 ||
    (q.rows <= batch.rewards.rows && 1 <= batch.rewards.cols &&
     q.rows <= batch.dones.rows && 1 <= batch.dones.cols &&
     q.rows <= batch.actions.rows && 1 <= batch.actions.cols &&
     forall i :: 0 <= i < q.rows && 0 <= Trunc(Get(batch.actions, i, 0)) < q.cols && Get(batch.dones, i, 0) <= 0.5 ==>
       i < f.rows && 1 <= f.cols)
  }

  /** The one-step target of a transition whose episode goes on: the reward plus the discounted future value. */
  function Bellman(reward: real, gamma: real, future: real): real
  {
    reward + gamma * future
  }

  /** The cell of the target map: in the taken action's column r, or r + γ·future unless done > 0.5; else Q. */
  function TargetCell(q: Mat, f: Mat, batch: Batch, gamma: real, i: int, j: int): real
    requires Wf(q) && Wf(f) && Wf(batch.actions) && Wf(batch.rewards) && Wf(batch.dones)
    requires Readable(q, f, batch) && 0 <= i < q.rows && 0 <= j < q.cols
  {
    var reward := Get(batch.rewards, i, 0);
    var done := Get(batch.dones, i, 0);
    if j == Trunc(Get(batch.actions, i, 0)) then
      (if done > 0.5 then reward else Bellman(reward, gamma, Get(f, i, 0)))
    else Get(q, i, j)
  }

  /** The `map` building the training target from the current Q and the future values. */
  function Targets(q: Mat, f: Mat, batch: Batch, gamma: real): (r: Result<Mat>)
    requires Wf(q) && Wf(f) && Wf(batch.actions) && Wf(batch.rewards) && Wf(batch.dones)
    ensures r.Ok? <==> Readable(q, f, batch)
    ensures r.Ok? ==> Wf(r.value) && r.value.rows == q.rows && r.value.cols == q.cols
    ensures r.Ok? ==> forall i, j :: 0 <= i < q.rows && 0 <= j < q.cols ==>
      Get(r.value, i, j) == TargetCell(q, f, batch, gamma, i, j)
  {
    if !Readable(q, f, batch) then Err(OutOfBounds)
    else Ok(Tabulate(q.rows, q.cols, (i, j) =>
      if 0 <= i < q.rows && 0 <= j < q.cols then TargetCell(q, f, batch, gamma, i, j) else 0.0))
  }

  /** The target construction of `update`, from the three predictions it makes. */
  function TrainingTargets(qCur: Mat, qNext: Mat, qNextTarget: Mat, batch: Batch, gamma: real): Result<Mat>
    requires Wf(qCur) && Wf(qNext) && Wf(qNextTarget)
    requires Wf(batch.actions) && Wf(batch.rewards) && Wf(batch.dones)
  {
    if qNextTarget.cols > 0 && qNextTarget.rows > qNext.rows then Err(OutOfBounds)
    else Targets(qCur, Future(qNextTarget, BestNext(qNext)), batch, gamma)
  }

  /**
   * `update`'s target steps: the best next actions of the online network's
   * next-state Q, the target network's values there, then the target map.
   */
  method ComputeTargets(qCur: Mat, qNext: Mat, qNextTarget: Mat, batch: Batch, gamma: real) returns (r: Result<Mat>)
    requires Wf(qCur) && Wf(qNext) && Wf(qNextTarget)
    requires Wf(batch.actions) && Wf(batch.rewards) && Wf(batch.dones)
    ensures r == TrainingTargets(qCur, qNext, qNextTarget, batch, gamma)
  {
    var b := ChooseBestNext(qNext);
    var f := FutureValues(qNextTarget, b);
    if f.Err? {
      return Err(OutOfBounds);
    }
    r := Targets(qCur, f.value, batch, gamma);
  }

  /** The future value of a row is the target network's Q at the online network's first best next action. */
  lemma FutureAtBest(qNext: Mat, qNextTarget: Mat, i: int)
    requires Wf(qNext) && Wf(qNextTarget) && qNextTarget.rows == qNext.rows && qNextTarget.cols == qNext.cols
    requires 0 <= i < qNext.rows && qNext.cols > 0
    ensures Get(Future(qNextTarget, BestNext(qNext)), i, 0) == Get(qNextTarget, i, ArgMax(qNext, i, qNext.cols))
  {
    var b := BestNext(qNext);
    var a := ArgMax(qNext, i, qNext.cols);
    assert Get(b, i, 0) == a as real;
    assert Trunc(a as real) == a;
  }

  /**
   * The target keeps the current Q outside the taken action's column; in
   * that column it is the reward when the episode ended, and otherwise the
   * reward plus γ times the target network's Q at the first best next
   * action of the online network. The three predictions come from networks
   * of one shape on one batch, so they share their number of columns.
   */
  lemma TargetsMeaning(qCur: Mat, qNext: Mat, qNextTarget: Mat, batch: Batch, gamma: real, i: int, j: int)
    requires Wf(qCur) && Wf(qNext) && Wf(qNextTarget)
    requires Wf(batch.actions) && Wf(batch.rewards) && Wf(batch.dones)
    requires qNextTarget.rows == qNext.rows && qNextTarget.cols == qNext.cols && qNext.cols == qCur.cols
    requires TrainingTargets(qCur, qNext, qNextTarget, batch, gamma).Ok? && 0 <= i < qCur.rows && 0 <= j < qCur.cols
    ensures var t := TrainingTargets(qCur, qNext, qNextTarget, batch, gamma).value;
      var a := Trunc(Get(batch.actions, i, 0));
      (j != a ==> Get(t, i, j) == Get(qCur, i, j)) &&
      (j == a && Get(batch.dones, i, 0) > 0.5 ==> Get(t, i, j) == Get(batch.rewards, i, 0)) &&
      (j == a && Get(batch.dones, i, 0) <= 0.5 ==>
        i < qNext.rows &&
        Get(t, i, j) == Bellman(Get(batch.rewards, i, 0), gamma, Get(qNextTarget, i, ArgMax(qNext, i, qNext.cols))))
  {
    var f := Future(qNextTarget, BestNext(qNext));
    var t := Targets(qCur, f, batch, gamma);
    assert TrainingTargets(qCur, qNext, qNextTarget, batch, gamma) == t;
    assert Get(t.value, i, j) == TargetCell(qCur, f, batch, gamma, i, j);
    if j == Trunc(Get(batch.actions, i, 0)) && Get(batch.dones, i, 0) <= 0.5 {
      assert i < f.rows;
      FutureAtBest(qNext, qNextTarget, i);
      var v := Get(qNextTarget, i, ArgMax(qNext, i, qNext.cols));
      assert Get(f, i, 0) == v;
    }
  }

  // -------------------------------------------------------------- gating

  /** One `update` call as written: it trains when the counter is a multiple of f and the buffer holds warmup transitions; only then does the counter advance. */
  function GateStep(f: int, warmup: int, steps: int, size: int): int
    requires f > 0
  {
    if steps % f == 0 && size >= warmup then steps + 1 else steps
  }

  /** The counter after update calls whose buffer sizes, after each add, are sizes. */
  function StepsAfter(f: int, warmup: int, sizes: seq<int>, steps: int): int
    requires f > 0
  {
    if |sizes| == 0 then steps else GateStep(f, warmup, StepsAfter(f, warmup, sizes[..|sizes| - 1], steps), sizes[|sizes| - 1])
  }

  /** With a training frequency above 1, `update` as written trains at most once, ever. */
  lemma {:induction false} AtMostOneTraining(f: int, warmup: int, sizes: seq<int>)
    requires f > 1
    ensures 0 <= StepsAfter(f, warmup, sizes, 0) <= 1
  {
    if |sizes| > 0 {
      AtMostOneTraining(f, warmup, sizes[..|sizes| - 1]);
      ModBelow(1, f);
    }
  }

  /** With a full buffer from the first call, the gate as written trains on the first call and never again when f > 1. */
  lemma TrainsOnceThenStops(f: int, warmup: int, sizes: seq<int>)
    requires f > 1 && |sizes| > 0 && forall k :: 0 <= k < |sizes| ==> sizes[k] >= warmup
    ensures StepsAfter(f, warmup, sizes, 0) == 1
  {
    AtMostOneTraining(f, warmup, sizes[..|sizes| - 1]);
    ModBelow(1, f);
  }

  /** The evidently intended gate: every call advances the counter, and call k (from 1) trains when k is a multiple of f and the buffer is warm. */
  function IntendedTrainings(f: int, warmup: int, sizes: seq<int>): nat
    requires f > 0
  {
    if |sizes| == 0 then 0
    else
      IntendedTrainings(f, warmup, sizes[..|sizes| - 1]) +
      (if |sizes| % f == 0 && sizes[|sizes| - 1] >= warmup then 1 else 0)
  }

  /** n / f grows by one exactly at the multiples of f. */
  lemma DivStep(n: int, f: int)
    requires n > 0 && f > 0
    ensures n / f == (n - 1) / f + (if n % f == 0 then 1 else 0)
  {
    var q, r := (n - 1) / f, (n - 1) % f;
    if r + 1 == f {
      DivUnique(n, f, q + 1, 0);
    } else {
      DivUnique(n, f, q, r + 1);
    }
  }

  /** With the intended gate and a warm buffer, n calls train n / f times: once every f calls. */
  lemma {:induction false} IntendedTrainsEveryF(f: int, warmup: int, sizes: seq<int>)
    requires f > 0 && forall k :: 0 <= k < |sizes| ==> sizes[k] >= warmup
    ensures IntendedTrainings(f, warmup, sizes) == |sizes| / f
  {
    if |sizes| > 0 {
      IntendedTrainsEveryF(f, warmup, sizes[..|sizes| - 1]);
      DivStep(|sizes|, f);
    }
  }

  datatype TargetUpdate = Hard | Soft

  /**
   * The bookkeeping of `DQNAgent`: the replay buffer and the training-step
   * counter, with the configuration's training frequency, warm-up size,
   * target update interval and update kind.
   */
  class Agent {
    const buffer: Replay.ReplayBuffer
    var stepsDone: int
    const trainFrequency: int
    const warmup: int
    const interval: int
    const updateKind: TargetUpdate

    ghost predicate Valid()
      reads this, buffer
    {
      buffer.Valid() && stepsDone >= 0 && trainFrequency > 0 && interval > 0
    }

    constructor(memorySize: int, frequency: int, warmupSize: int, updateInterval: int, kind: TargetUpdate)
      requires memorySize > 0 && frequency > 0 && updateInterval > 0
      ensures Valid() && fresh(buffer) && buffer.added == [] && stepsDone == 0
      ensures trainFrequency == frequency && warmup == warmupSize && interval == updateInterval && updateKind == kind
    {
      buffer := new Replay.ReplayBuffer(memorySize);
      stepsDone := 0;
      trainFrequency, warmup, interval, updateKind := frequency, warmupSize, updateInterval, kind;
    }

    /**
     * The gate of `update(t)`: t is stored; the step trains when the
     * counter is a multiple of the training frequency and the buffer holds
     * the warm-up size; a training step advances the counter and then asks
     * for the target update of the configured kind when the new counter is
     * a multiple of the interval.
     */
    method Update(t: Spaces.Transition) returns (trains: bool, target: Option<TargetUpdate>)
      requires Valid()
      modifies this, buffer
      ensures Valid() && buffer.added == old(buffer.added) + [t]
      ensures trains <==> old(stepsDone) % trainFrequency == 0 && buffer.Size() >= warmup
      ensures stepsDone == GateStep(trainFrequency, warmup, old(stepsDone), buffer.Size())
      ensures target == if trains && stepsDone % interval == 0 then Some(updateKind) else None
    {
      buffer.Add(t);
      if stepsDone % trainFrequency != 0 {
        return false, None;
      }
      if buffer.Size() < warmup {
        return false, None;
      }
      stepsDone := stepsDone + 1;
      trains := true;
      target := if stepsDone % interval == 0 then Some(updateKind) else None;
    }
  }

  // ----------------------------------------------------- target networks

  /** The soft update of one parameter: τ·source + (1 - τ)·target. */
  function Blend(src: Mat, dst: Mat, tau: real): (m: Mat)
    requires Wf(src) && Wf(dst) && src.rows == dst.rows && src.cols == dst.cols
    ensures Wf(m) && m.rows == src.rows && m.cols == src.cols
  {
    Added(Scaled(src, tau), Scaled(dst, 1.0 - tau))
  }

  /** Every target parameter blended with the source parameter at the same position. */
  function Blended(ps: seq<Mat>, qs: seq<Mat>, tau: real): (rs: seq<Mat>)
    requires AllWf(ps) && AllWf(qs) && Fitting(ps, qs)
    ensures |rs| == |ps|
  {
    seq(|ps|, k requires 0 <= k < |ps| => Blend(ps[k], qs[k], tau))
  }

  /** Blending keeps every shape; τ = 1 gives the source, τ = 0 the target, and equal networks stay equal. */
  lemma BlendedMeans(ps: seq<Mat>, qs: seq<Mat>, tau: real)
    requires AllWf(ps) && AllWf(qs) && Fitting(ps, qs)
    ensures Fitting(qs, Blended(ps, qs, tau)) && AllWf(Blended(ps, qs, tau))
    ensures tau == 1.0 ==> Blended(ps, qs, tau) == ps
    ensures tau == 0.0 ==> Blended(ps, qs, tau) == qs
    ensures ps == qs ==> Blended(ps, qs, tau) == ps
    ensures forall k, i, j :: 0 <= k < |ps| && 0 <= i < ps[k].rows && 0 <= j < ps[k].cols ==>
      Get(Blended(ps, qs, tau)[k], i, j) == tau * Get(ps[k], i, j) + (1.0 - tau) * Get(qs[k], i, j)
  {
    var rs := Blended(ps, qs, tau);
    forall k, i, j | 0 <= k < |ps| && 0 <= i < ps[k].rows && 0 <= j < ps[k].cols
      ensures Get(rs[k], i, j) == tau * Get(ps[k], i, j) + (1.0 - tau) * Get(qs[k], i, j)
    {
    }
    if tau == 1.0 || tau == 0.0 || ps == qs {
      forall k | 0 <= k < |ps|
        ensures rs[k] == (if tau == 0.0 then qs[k] else ps[k])
      {
        Ext(rs[k], if tau == 0.0 then qs[k] else ps[k]);
      }
    }
  }

  /**
   * `updateTargetNetwork` when the counter is a multiple of the interval.
   * HARD: the target becomes `copy`, the copy of the online network. SOFT:
   * every target parameter is blended with the online one at the same
   * position; without a target network (single DQN) the source dereferences
   * a null pointer, an error here, as are parameters of different shapes.
   * Off the interval nothing changes.
   */
  method UpdateTargetNetwork(kind: TargetUpdate, stepsDone: int, interval: int, tau: real,
                             source: NeuralNetwork, target: Option<NeuralNetwork>, copy: NeuralNetwork)
    returns (next: Option<NeuralNetwork>, r: Result<()>)
    requires stepsDone >= 0 && interval > 0
    requires source.Valid() && copy.Valid() && copy.Parameters() == source.Parameters()
    requires target.Some? ==> target.value.Valid() && Objs(target.value.layers) !! Objs(source.layers) + Objs(copy.layers)
    requires AllWf(source.Parameters()) && (target.Some? ==> AllWf(target.value.Parameters()))
    modifies if target.Some? then Objs(target.value.layers) else {}
    ensures stepsDone % interval != 0 ==> next == target && r.Ok?
    ensures stepsDone % interval == 0 && kind == Hard ==> next == Some(copy) && r.Ok?
    ensures stepsDone % interval == 0 && kind == Soft && target.None? ==> r.Err?
    ensures stepsDone % interval == 0 && kind == Soft && target.Some? ==>
      next == target && target.value.Valid() &&
      (r.Ok? <==> Fitting(old(source.Parameters()), old(target.value.Parameters()))) &&
      (r.Ok? ==> target.value.Parameters() == Blended(old(source.Parameters()), old(target.value.Parameters()), tau))
    ensures next.Some? ==> next.value.Valid() && source.Parameters() == old(source.Parameters())
  {
    next, r := target, Ok(());
    if stepsDone % interval != 0 {
      return;
    }
    if kind == Hard {
      next := Some(copy);
      return;
    }
    if target.None? {
      r := Err("target network is null");
      return;
    }
    r := SoftUpdate(source, target.value, tau);
  }

  /**
   * The soft update proper: the loop over the parameter pairs replacing
   * each target parameter by its blend with the source parameter, the new
   * parameters then stored into the target network. (Every parameter of a
   * valid network is well formed; the requires says so for the contract.)
   */
  method SoftUpdate(source: NeuralNetwork, target: NeuralNetwork, tau: real) returns (r: Result<()>)
    requires source.Valid() && target.Valid() && Objs(target.layers) !! Objs(source.layers)
    requires AllWf(source.Parameters()) && AllWf(target.Parameters())
    modifies Objs(target.layers)
    ensures target.Valid() && source.Parameters() == old(source.Parameters())
    ensures r.Ok? <==> Fitting(old(source.Parameters()), old(target.Parameters()))
    ensures r.Ok? ==> target.Parameters() == Blended(old(source.Parameters()), old(target.Parameters()), tau)
    ensures r.Err? ==> target.Parameters() == old(target.Parameters())
  {
    var ps := source.Parameters();
    var qs := target.Parameters();
    if !Fitting(ps, qs) {
      return Err("source and target parameters differ in shape");
    }
    var rs := qs;
    var k := 0;
    while k < |ps|
      invariant 0 <= k <= |ps| && |rs| == |qs|
      invariant forall m :: 0 <= m < k ==> rs[m] == Blend(ps[m], qs[m], tau)
      invariant forall m :: k <= m < |rs| ==> rs[m] == qs[m]
    {
      var term1 := Scaled(ps[k], tau);
      var term2 := Scaled(rs[k], 1.0 - tau);
      rs := rs[k := Added(term1, term2)];
      k := k + 1;
    }
    assert rs == Blended(ps, qs, tau);
    BlendedMeans(ps, qs, tau);
    ghost var spss := ParamLists(source.layers);
    label before:
    target.Store(rs);
    forall m | 0 <= m < |source.layers|
      ensures ParamLists(source.layers)[m] == spss[m]
    {
      assert source.layers[m].Obj() in Objs(source.layers);
      assert unchanged@before(source.layers[m].Obj());
    }
    assert ParamLists(source.layers) == spss;
    r := Ok(());
  }
}
