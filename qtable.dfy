// The tabular Q-learning agent (src/rl/QTable.cpp and
// include/talawa-ai/rl/QTable.hpp): a map from state hashes to one Q-value
// per action, epsilon-greedy action choice, the one-step Q-learning update
// and the text save format. A game state is represented by its hash; the
// random draws are parameters.
module QTables {
  import opened Common
  import opened MatrixSpec
  import opened QTableText

  /**
   * `env::Transition` as `learn` reads it: the hashes of the (possibly null)
   * state and next state, the action matrix, the reward and the terminal flag.
   */
  datatype Transition = Transition(state: Option<nat>, action: Mat, reward: real, nextState: Option<nat>, terminated: bool)

  /** The Q-values of a hash: the stored vector, or `numActions` zeros for an unseen hash. */
  function Row(table: map<nat, seq<real>>, hash: nat, numActions: nat): (q: seq<real>)
    ensures hash in table ==> q == table[hash]
    ensures hash !in table ==> |q| == numActions && forall i :: 0 <= i < numActions ==> q[i] == 0.0
  {
    if hash in table then table[hash] else seq(numActions, _ => 0.0)
  }

  /** The largest value of a non-empty vector. */
  function MaxOf(q: seq<real>): (m: real)
    requires |q| > 0
    ensures m in q && forall x :: x in q ==> x <= m
  {
    if |q| == 1 then q[0]
    else
      var rest := MaxOf(q[1..]);
      assert forall x :: x in q ==> x == q[0] || x in q[1..];
      if q[0] < rest then rest else q[0]
  }

  /** `get_max_q`: 0 for an unseen hash, otherwise the largest stored value. */
  function MaxQ(table: map<nat, seq<real>>, hash: nat): (m: real)
    requires hash in table ==> |table[hash]| > 0
    ensures hash !in table ==> m == 0.0
    ensures hash in table ==> m in table[hash] && forall x :: x in table[hash] ==> x <= m
  {
    if hash in table then MaxOf(table[hash]) else 0.0
  }

  /**
   * The index the greedy scan settles on: the first of the first n values
   * that no later value strictly exceeds; 0 when n is 0.
   */
  function FirstArgMax(q: seq<real>, n: nat): (b: nat)
    requires n <= |q|
    ensures n == 0 ==> b == 0
    ensures n > 0 ==> b < n && forall j :: 0 <= j < n ==> q[j] <= q[b]
    ensures forall j :: 0 <= j < b ==> q[j] < q[b]
  {
    if n <= 1 then 0
    else
      var b := FirstArgMax(q, n - 1);
      if q[n - 1] > q[b] then n - 1 else b
  }

  /** The greedy branch of `act`: a strict `>` scan from minus infinity over the first n values. */
  method Greedy(q: seq<real>, n: nat) returns (best: nat)
    requires n <= |q|
    ensures best == FirstArgMax(q, n)
  {
    best := 0;
    var bestValue: Option<real> := None;
    var i := 0;
    while i < n
      invariant 0 <= i <= n
      invariant i == 0 ==> best == 0 && bestValue.None?
      invariant i > 0 ==> best == FirstArgMax(q, i) && bestValue == Some(q[best])
    {
      if bestValue.None? || q[i] > bestValue.value {
        bestValue := Some(q[i]);
        best := i;
      }
      i := i + 1;
    }
  }

  /** One Q-learning step: the value moved by a fraction `lr` of the way to `target`. */
  function Moved(q: real, target: real, lr: real): real
  {
    q + lr * (target - q)
  }

  /** The target of `learn`: reward plus the discounted best value of the next state, 0 when there is none. */
  function Target(table: map<nat, seq<real>>, t: Transition, discount: real): real
    requires t.nextState.Some? && t.nextState.value in table ==> |table[t.nextState.value]| > 0
  {
    t.reward + discount * (if t.nextState.Some? then MaxQ(table, t.nextState.value) else 0.0)
  }

  /** The action matrix's first cell, read as `static_cast<size_t>` reads it. */
  function ActionIndex(action: Mat): int
    requires Wf(action) && action.rows > 0 && action.cols > 0
  {
    Trunc(Get(action, 0, 0))
  }

  /** What `learn` may assume about the stored transition. */
  ghost predicate Learnable(table: map<nat, seq<real>>, t: Transition)
  {
    (t.state.Some? ==> Wf(t.action) && t.action.rows > 0 && t.action.cols > 0) &&
    (t.nextState.Some? && t.nextState.value in table ==> |table[t.nextState.value]| > 0)
  }

  /**
   * The table after `learn`: unchanged for a null state; otherwise the row of
   * the state is created if unseen, and Q(s, a) is moved toward the target
   * when a is an index of that row.
   */
  ghost function Learned(table: map<nat, seq<real>>, t: Transition, numActions: nat, lr: real, discount: real): map<nat, seq<real>>
    requires Learnable(table, t)
  {
    if t.state.None? then table
    else
      var s := t.state.value;
      var target := Target(table, t, discount);
      var q := Row(table, s, numActions);
      var a := ActionIndex(t.action);
      if 0 <= a < |q| then table[s := q[a := Moved(q[a], target, lr)]] else table[s := q]
  }

  class QTable {
    /** `num_actions_`. */
    var numActions: nat
    /** `learning_rate_`. */
    var learningRate: real
    /** `discount_factor_`. */
    var discount: real
    /** `epsilon_`: the exploration probability. */
    var epsilon: real
    /** `last_transition_`. */
    var lastTransition: Option<Transition>
    /** `q_table_`: the Q-values of every state seen, by hash. */
    var table: map<nat, seq<real>>

    /** `QTable(num_actions, learning_rate, discount_factor, epsilon)`: an empty table, no transition. */
    constructor(actions: nat, lr: real, gamma: real, eps: real)
      ensures numActions == actions && learningRate == lr && discount == gamma && epsilon == eps
      ensures table == map[] && lastTransition.None?
    {
      numActions := actions;
      learningRate := lr;
      discount := gamma;
      epsilon := eps;
      lastTransition := None;
      table := map[];
    }

    /** `get_q`: the row of a hash, inserting `numActions` zeros when the hash is unseen. */
    method GetQ(hash: nat) returns (q: seq<real>)
      modifies this
      ensures q == Row(old(table), hash, numActions)
      ensures table == old(table)[hash := q]
      ensures hash in old(table) ==> table == old(table)
      ensures numActions == old(numActions) && lastTransition == old(lastTransition)
      ensures learningRate == old(learningRate) && discount == old(discount) && epsilon == old(epsilon)
    {
      if hash !in table {
        table := table[hash := seq(numActions, _ => 0.0)];
      }
      q := table[hash];
    }

    /** `get_max_q`. */
    function GetMaxQ(hash: nat): (m: real)
      reads this
      requires hash in table ==> |table[hash]| > 0
      ensures m == MaxQ(table, hash)
    {
      MaxQ(table, hash)
    }

    /**
     * `act`: the row of the state is created if unseen; when training and
     * the draw falls below epsilon the action is the random pick, otherwise
     * the first index of a maximal Q-value among the first `numActions`.
     * The mask is ignored.
     */
    method Act(hash: nat, training: bool, draw: real, pick: nat) returns (action: Mat)
      requires hash in table ==> |table[hash]| >= numActions
      modifies this
      ensures numActions == old(numActions) && lastTransition == old(lastTransition)
      ensures learningRate == old(learningRate) && discount == old(discount) && epsilon == old(epsilon)
      ensures table == old(table)[hash := Row(old(table), hash, numActions)]
      ensures Wf(action) && action.rows == 1 && action.cols == 1
      ensures training && draw < epsilon ==> action.data == [pick as real]
      ensures !(training && draw < epsilon) ==> action.data == [FirstArgMax(Row(old(table), hash, numActions), numActions) as real]
    {
      var q := GetQ(hash);
      if training && draw < epsilon {
        return Mat(1, 1, [pick as real]);
      }
      var best := Greedy(q, numActions);
      return Mat(1, 1, [best as real]);
    }

    /** `observe`: the transition replaces the stored one. */
    method Observe(t: Transition)
      modifies this
      ensures lastTransition == Some(t) && table == old(table)
      ensures numActions == old(numActions) && epsilon == old(epsilon)
      ensures learningRate == old(learningRate) && discount == old(discount)
    {
      lastTransition := Some(t);
    }

    /** `ready_to_learn`. */
    function ReadyToLearn(): (ready: bool)
      reads this
      ensures ready <==> lastTransition.Some?
    {
      lastTransition.Some?
    }

    /**
     * `learn`: nothing for a null state; otherwise the best next value is
     * taken first, the row of the state is created if unseen, and Q(s, a)
     * moves by `learningRate` toward reward + discount * maxQ(s') when a
     * indexes the row.
     */
    method Learn()
      requires lastTransition.Some? && Learnable(table, lastTransition.value)
      modifies this
      ensures lastTransition == old(lastTransition) && numActions == old(numActions)
      ensures learningRate == old(learningRate) && discount == old(discount) && epsilon == old(epsilon)
      ensures table == Learned(old(table), old(lastTransition).value, numActions, learningRate, discount)
    {
      var t := lastTransition.value;
      if t.state.None? {
        return;
      }
      var maxNext := 0.0;
      if t.nextState.Some? {
        maxNext := GetMaxQ(t.nextState.value);
      }
      var target := t.reward + discount * maxNext;
      assert target == Target(old(table), t, discount);
      var q := GetQ(t.state.value);
      var a := Trunc(Get(t.action, 0, 0));
      assert a == ActionIndex(t.action) && q == Row(old(table), t.state.value, numActions);
      if a < 0 || a >= |q| {
        return;
      }
      var updated := q[a := q[a] + learningRate * (target - q[a])];
      assert Moved(q[a], target, learningRate) == q[a] + learningRate * (target - q[a]);
      assert updated == q[a := Moved(q[a], target, learningRate)];
      assert table[t.state.value := updated] == old(table)[t.state.value := updated];
      table := table[t.state.value := updated];
    }

    /** `set_epsilon`. */
    method SetEpsilon(eps: real)
      modifies this
      ensures GetEpsilon() == eps && table == old(table) && lastTransition == old(lastTransition)
      ensures numActions == old(numActions) && learningRate == old(learningRate) && discount == old(discount)
    {
      epsilon := eps;
    }

    /** `get_epsilon`. */
    function GetEpsilon(): real
      reads this
    {
      epsilon
    }

    /**
     * `load` over the file's lines: nothing happens when the file cannot be
     * opened (`None`); otherwise the table is cleared and filled line by
     * line until a malformed line, whose error is returned.
     */
    method Load(file: Option<seq<string>>, read: string -> Option<real>) returns (err: Option<string>)
      modifies this
      ensures file.None? ==> table == old(table) && err.None?
      ensures file.Some? ==> (table, err) == LoadLines(file.value, read)
      ensures numActions == old(numActions) && lastTransition == old(lastTransition)
      ensures learningRate == old(learningRate) && discount == old(discount) && epsilon == old(epsilon)
    {
      if file.None? {
        return None;
      }
      var lines := file.value;
      table := map[];
      var i := 0;
      while i < |lines|
        invariant 0 <= i <= |lines|
        invariant LoadLines(lines[..i], read) == (table, None)
        invariant numActions == old(numActions) && lastTransition == old(lastTransition)
        invariant learningRate == old(learningRate) && discount == old(discount) && epsilon == old(epsilon)
      {
        assert lines[..i + 1][..i] == lines[..i];
        match ParseLine(lines[i], read)
        case Err(e) =>
          assert lines[..i + 1] == lines[..i] + [lines[i]];
          ErrorIsFinal(lines[..i + 1], lines[i + 1..], read);
          assert lines[..i + 1] + lines[i + 1..] == lines;
          return Some(e);
        case Ok((h, qs)) =>
          table := table[h := qs];
        i := i + 1;
      }
      assert lines[..i] == lines;
      return None;
    }
  }

  /** Learning changes no row but the state's, and no entry of that row but Q(s, a). */
  lemma LearnTouchesOnlyStateAction(table: map<nat, seq<real>>, t: Transition, numActions: nat, lr: real, discount: real)
    requires Learnable(table, t)
    ensures t.state.None? ==> Learned(table, t, numActions, lr, discount) == table
    ensures forall h :: h in table && Some(h) != t.state ==> h in Learned(table, t, numActions, lr, discount) && Learned(table, t, numActions, lr, discount)[h] == table[h]
    ensures t.state.Some? ==> Learned(table, t, numActions, lr, discount).Keys == table.Keys + {t.state.value}
    ensures t.state.Some? ==> |Learned(table, t, numActions, lr, discount)[t.state.value]| == |Row(table, t.state.value, numActions)|
    ensures t.state.Some? ==> forall j :: 0 <= j < |Row(table, t.state.value, numActions)| && j != ActionIndex(t.action) ==>
      Learned(table, t, numActions, lr, discount)[t.state.value][j] == Row(table, t.state.value, numActions)[j]
  {
  }

  /** An index outside the row leaves every value as it was, only creating the row. */
  lemma LearnOutOfRangeKeepsValues(table: map<nat, seq<real>>, t: Transition, numActions: nat, lr: real, discount: real)
    requires Learnable(table, t) && t.state.Some?
    requires ActionIndex(t.action) < 0 || ActionIndex(t.action) >= |Row(table, t.state.value, numActions)|
    ensures Learned(table, t, numActions, lr, discount) == table[t.state.value := Row(table, t.state.value, numActions)]
  {
  }

  /**
   * With a learning rate in [0, 1] the updated Q(s, a) lies between its old
   * value and the target; a rate of 1 lands on the target.
   */
  lemma LearnMovesTowardTarget(table: map<nat, seq<real>>, t: Transition, numActions: nat, lr: real, discount: real)
    requires Learnable(table, t) && t.state.Some?
    requires 0 <= ActionIndex(t.action) < |Row(table, t.state.value, numActions)|
    requires 0.0 <= lr <= 1.0
    ensures var old_q := Row(table, t.state.value, numActions)[ActionIndex(t.action)];
            var new_q := Learned(table, t, numActions, lr, discount)[t.state.value][ActionIndex(t.action)];
            var target := Target(table, t, discount);
            MinR(old_q, target) <= new_q <= MaxR(old_q, target) && (lr == 1.0 ==> new_q == target)
  {
    var old_q := Row(table, t.state.value, numActions)[ActionIndex(t.action)];
    var target := Target(table, t, discount);
    MovedBetween(old_q, target, lr);
  }

  lemma MovedBetween(q: real, target: real, lr: real)
    requires 0.0 <= lr <= 1.0
    ensures MinR(q, target) <= Moved(q, target, lr) <= MaxR(q, target)
    ensures lr == 1.0 ==> Moved(q, target, lr) == target
  {
    if q <= target {
      ProductBelow(lr, target - q);
    } else {
      ProductBelow(lr, q - target);
      assert lr * (target - q) == -(lr * (q - target));
    }
  }

  lemma ProductBelow(lr: real, d: real)
    requires 0.0 <= lr <= 1.0 && d >= 0.0
    ensures 0.0 <= lr * d <= d
  {
    assert d - lr * d == (1.0 - lr) * d;
  }

  /** A value already at the target is left where it is, whatever the rate. */
  lemma LearnFixedPoint(table: map<nat, seq<real>>, t: Transition, numActions: nat, lr: real, discount: real)
    requires Learnable(table, t) && t.state.Some?
    requires 0 <= ActionIndex(t.action) < |Row(table, t.state.value, numActions)|
    requires Row(table, t.state.value, numActions)[ActionIndex(t.action)] == Target(table, t, discount)
    ensures Learned(table, t, numActions, lr, discount) == table[t.state.value := Row(table, t.state.value, numActions)]
  {
    var q := Row(table, t.state.value, numActions);
    var a := ActionIndex(t.action);
    assert q[a := Moved(q[a], Target(table, t, discount), lr)] == q;
  }

  /** Without a next state, or with an unseen one, the target is the reward alone. */
  lemma TargetWithoutNext(table: map<nat, seq<real>>, t: Transition, discount: real)
    requires t.nextState.None? || t.nextState.value !in table
    ensures Target(table, t, discount) == t.reward
  {
  }

  /** The greedy choice is unique: any index that is maximal and strictly beats all before it is the scan's. */
  lemma FirstArgMaxUnique(q: seq<real>, n: nat, b: nat)
    requires 0 < n <= |q| && b < n
    requires forall j :: 0 <= j < n ==> q[j] <= q[b]
    requires forall j :: 0 <= j < b ==> q[j] < q[b]
    ensures FirstArgMax(q, n) == b
  {
  }

  /** An unseen state acts greedily on all-zero values: action 0. */
  lemma UnseenStateActsZero(numActions: nat)
    ensures FirstArgMax(seq(numActions, _ => 0.0), numActions) == 0
  {
    if numActions > 0 {
      FirstArgMaxUnique(seq(numActions, _ => 0.0), numActions, 0);
    }
  }
}
