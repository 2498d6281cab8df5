// Vocabulary shared by the single-agent environments of the `talawa_ai::env`
// namespace (include/talawa-ai/env/RLTypes.hpp): a transition between two
// game-state snapshots, one-hot observations and the action cell read by
// `action(0, 0)`.
module GameStates {
  import opened Common
  import opened MatrixSpec

  /**
   * The `Transition` a `step` returns: the snapshot before the action, the
   * action, the reward, the snapshot after it, and whether the episode ended.
   */
  datatype Transition<S> = Transition(state: S, action: Mat, reward: real, nextState: S, terminated: bool)

  /** An action matrix that has a cell (0, 0) to read. */
  ghost predicate HasCell(action: Mat)
  {
    Wf(action) && action.rows > 0 && action.cols > 0
  }

  /** `static_cast<int>(action(0, 0))`. */
  function ActionValue(action: Mat): int
    requires HasCell(action)
  {
    Trunc(Get(action, 0, 0))
  }

  /**
   * A 1 x n row that is 1 at column k and 0 elsewhere; all zeros when k is
   * not a column.
   */
  function OneHot(n: nat, k: int): (m: Mat)
    ensures Wf(m) && m.rows == 1 && m.cols == n
    ensures forall j :: 0 <= j < n ==> Get(m, 0, j) == if j == k then 1.0 else 0.0
    ensures !(0 <= k < n) ==> m == Zeros(1, n)
  {
    var m := Tabulate(1, n, (i, j) => if j == k then 1.0 else 0.0);
    if 0 <= k < n then m else Ext(m, Zeros(1, n)); m
  }

  /** A one-hot row names its hot column: two one-hot rows agree iff their columns do. */
  lemma OneHotInjective(n: nat, k: int, k2: int)
    requires 0 <= k < n && 0 <= k2 < n
    ensures OneHot(n, k) == OneHot(n, k2) <==> k == k2
  {
    if OneHot(n, k) == OneHot(n, k2) {
      assert Get(OneHot(n, k), 0, k) == 1.0;
    }
  }
}
