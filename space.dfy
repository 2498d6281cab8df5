// Environment value types (include/talawa/env/types.hpp): observation and
// action spaces, actions, episode status and transitions. Observations,
// actions and masks are matrices.
module Spaces {
  import opened Common
  import opened MatrixSpec

  datatype SpaceType = Discrete | Continuous

  /** A space: its type, its shape and the stored lower and upper bounds. */
  datatype Space = Space(kind: SpaceType, shape: seq<int>, lowBounds: seq<real>, highBounds: seq<real>)

  /** `Space::Continuous`: dims and bounds stored as given. */
  function ContinuousSpace(dims: seq<int>, low: seq<real>, high: seq<real>): (s: Space)
    ensures s.kind == Continuous && s.shape == dims && s.lowBounds == low && s.highBounds == high
  {
    Space(Continuous, dims, low, high)
  }

  /** `Space::Discrete(n)`: shape {1}, a single low bound 0 and a single high bound n. */
  function DiscreteSpace(n: int): (s: Space)
    ensures s.kind == Discrete && s.shape == [1] && s.lowBounds == [0.0] && s.highBounds == [n as real]
  {
    Space(Discrete, [1], [0.0], [n as real])
  }

  /** A bound vector of length one stands for every index. */
  function BoundAt(bounds: seq<real>, i: nat): (b: real)
    requires |bounds| == 1 || i < |bounds|
    ensures |bounds| == 1 ==> b == bounds[0]
    ensures |bounds| != 1 ==> b == bounds[i]
  {
    if |bounds| == 1 then bounds[0] else bounds[i]
  }

  /** `low(i)`. */
  function Low(s: Space, i: nat): real
    requires |s.lowBounds| == 1 || i < |s.lowBounds|
  {
    BoundAt(s.lowBounds, i)
  }

  /** `high(i)`. */
  function High(s: Space, i: nat): real
    requires |s.highBounds| == 1 || i < |s.highBounds|
  {
    BoundAt(s.highBounds, i)
  }

  /** `n()`: the first high bound truncated to an int; not defined on a continuous space. */
  function N(s: Space): (r: Result<int>)
    requires s.kind == Discrete ==> |s.highBounds| >= 1
    ensures r.Err? <==> s.kind != Discrete
    ensures r.Ok? ==> r.value == Trunc(s.highBounds[0])
  {
    if s.kind != Discrete then Err("Not Discrete!") else Ok(Trunc(s.highBounds[0]))
  }

  /** A discrete space reports back its size, and its bounds are 0 and n at every index. */
  lemma DiscreteRoundTrip(n: int, i: nat)
    ensures N(DiscreteSpace(n)) == Ok(n)
    ensures Low(DiscreteSpace(n), i) == 0.0 && High(DiscreteSpace(n), i) == n as real
  {
    var s := DiscreteSpace(n);
    assert Trunc(n as real) == n;
  }

  /** `n()` of a continuous space always fails, whatever its bounds. */
  lemma ContinuousHasNoSize(dims: seq<int>, low: seq<real>, high: seq<real>)
    ensures N(ContinuousSpace(dims, low, high)).Err?
  {}

  /** `Action::None`: the empty 0 x 0 matrix. */
  const NoAction: Mat := Mat(0, 0, [])

  lemma NoActionIsEmpty()
    ensures Wf(NoAction) && NoAction.rows == 0 && NoAction.cols == 0 && NoAction.data == []
  {}

  datatype EpisodeStatus = Running | Terminated | Truncated

  /** One step of experience: s_t, a_t, r_{t+1}, s_{t+1} and the status after the action. */
  datatype Transition = Transition(state: Mat, action: Mat, reward: real, nextState: Mat, status: EpisodeStatus)

  /** The outcome of `step`: the transition and the new observation. */
  datatype StepResult = StepResult(transition: Transition, observation: Mat)
}
