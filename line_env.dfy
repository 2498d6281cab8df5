// The line walk of src/env/LineEnvironment.cpp: positions 0 .. length-1,
// the goal at length-1, and falling off the left end loses.
module LineEnvironments {
  import opened Common
  import opened MatrixSpec
  import opened GameStates

  /** `LineEnvironmentGameState`. */
  datatype LineState = LineState(position: int, done: bool)

  /** `get_action_space_size`: left and right. */
  const ActionSpaceSize: nat := 2

  class LineEnvironment {
    const length: nat
    var position: int
    var done: bool

    /**
     * A walk that started inside [0, length-2] is on [-1, length-1], and it
     * is over exactly when it stands on one of the two ends.
     */
    ghost predicate OnLine()
      reads this
    {
      -1 <= position <= length - 1 && (done <==> position == -1 || position == length - 1)
    }

    /** A new walk stands at 0 with the episode running. */
    constructor (length: nat)
      ensures this.length == length && position == 0 && !done
    {
      this.length := length;
      position := 0;
      done := false;
    }

    /** `reset`: `start` is the uniform draw from [0, length-2]. */
    method Reset(start: int)
      requires 0 <= start <= length - 2
      modifies this
      ensures position == start && !done && OnLine()
    {
      position := start;
      done := false;
    }

    /** `observe`: one-hot on the position, all zeros when the position is off the line. */
    function Observe(): (obs: Mat)
      reads this
      ensures Wf(obs) && obs.rows == 1 && obs.cols == length
      ensures forall j :: 0 <= j < length ==> Get(obs, 0, j) == if j == position then 1.0 else 0.0
      ensures !(0 <= position < length) ==> obs == Zeros(1, length)
    {
      OneHot(length, position)
    }

    function Snapshot(): (s: LineState)
      reads this
      ensures s.position == position && s.done == done
    {
      LineState(position, done)
    }

    method Restore(s: LineState)
      modifies this
      ensures Snapshot() == s
    {
      position := s.position;
      done := s.done;
    }

    /**
     * `step`: fails once the walk is over. Action 0 moves left and every
     * other action moves right; the walk ends below 0 or on length-1, with
     * reward +1 at the goal, -1 off the left end and -0.01 otherwise.
     */
    method Step(action: Mat) returns (r: Result<Transition<LineState>>)
      requires HasCell(action)
      modifies this
      ensures old(done) ==> r.Err? && position == old(position) && done
      ensures !old(done) ==> r.Ok? && r.value.state == LineState(old(position), false) && r.value.action == action
      ensures !old(done) ==> position == old(position) + (if ActionValue(action) == 0 then -1 else 1)
      ensures !old(done) ==> (done <==> position < 0 || position == length - 1)
      ensures r.Ok? ==> r.value.nextState == Snapshot() && r.value.terminated == done
      ensures r.Ok? ==> r.value.reward ==
                          (if position == length - 1 then 1.0 else if position < 0 then -1.0 else -0.01)
      ensures old(OnLine()) ==> OnLine()
    {
      if done {
        return Err("Cannot step in a finished environment. Please reset.");
      }
      var prev := Snapshot();
      var move := ActionValue(action);
      position := position + (if move == 0 then -1 else 1);
      done := position < 0 || position == length - 1;
      var reward := -0.01;
      if done {
        reward := if position == length - 1 then 1.0 else -1.0;
      }
      r := Ok(Transition(prev, action, reward, Snapshot(), done));
    }
  }
}
