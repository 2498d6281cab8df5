// The one-dimensional frozen lake of src/env/FrozenLake.cpp: sixteen cells,
// holes at 5, 7, 11 and 12, the goal at 15; each move goes 0 to 3 cells right.
module FrozenLakes {
  import opened Common
  import opened MatrixSpec
  import opened Spaces
  import opened GameStates
  import opened Environments

  const GridSize: int := 16
  const Goal: int := 15
  const Holes: seq<int> := [5, 7, 11, 12]

  /** The `std::find` over the holes. */
  predicate IsHole(p: int)
  {
    p in Holes
  }

  /** A cell ends the episode when it is the goal or a hole. */
  predicate Ends(p: int)
  {
    p == Goal || IsHole(p)
  }

  /** The reward of the step that lands on p. */
  function RewardAt(p: int): (r: real)
    ensures r == 1.0 <==> p == Goal
    ensures r == -1.0 <==> IsHole(p)
    ensures r == -0.01 <==> !Ends(p)
  {
    if p == Goal then 1.0 else if IsHole(p) then -1.0 else -0.01
  }

  class FrozenLake {
    const base: Registry
    var position: int
    var done: bool

    ghost predicate Valid()
      reads this
    {
      |base.agentOrder| == 1 && base.agentOrder[0] == 0
    }

    /** `FrozenLake()`: agent 0, then `reset`. */
    constructor ()
      ensures fresh(base) && Valid() && position == 0 && !done
      ensures base.agentsData == map[] && base.instances == map[] && base.cumulative == map[0 := 0.0]
    {
      base := new Registry([0]);
      position := 0;
      done := false;
      new;
      base.cumulative := base.cumulative[0 := 0.0];
    }

    /** `reset`: back to the start, cumulative reward zeroed, reports cleared. */
    method Reset()
      modifies this, base
      ensures position == 0 && !done
      ensures base.cumulative == old(base.cumulative)[0 := 0.0]
      ensures base.agentsData == Cleared(old(base.agentsData)) && base.instances == old(base.instances)
    {
      position := 0;
      done := false;
      base.cumulative := base.cumulative[0 := 0.0];
      base.agentsData := Cleared(base.agentsData);
    }

    /** `observe`: the position as a 1 x 1 matrix. */
    function Observe(): (obs: Mat)
      reads this
      ensures Wf(obs) && obs.rows == 1 && obs.cols == 1 && Get(obs, 0, 0) == position as real
    {
      Scalar(position as real)
    }

    /** `last`: agent 0's report; `.at` fails when agent 0 is not registered. */
    function Last(): (r: Result<StepReport>)
      reads this, base
      ensures r.Ok? <==> 0 in base.agentsData
      ensures r.Ok? ==> r.value == base.agentsData[0].report
    {
      if 0 in base.agentsData then Ok(base.agentsData[0].report) else Err("unordered_map::at")
    }

    /**
     * `step`: fails once the episode is over and for a move outside 0..3,
     * changing nothing. Otherwise the agent moves right, stopping at the last
     * cell; a hole ends the episode with reward -1, the goal with reward 1,
     * and any other cell costs 0.01. The reward is credited to agent 0 and
     * its report is written last, so for an unregistered agent 0 the step
     * fails after the state and the cumulative reward have changed.
     */
    method Step(action: Mat) returns (r: Result<()>)
      requires Valid() && HasCell(action)
      modifies this, base
      ensures Valid() && base.instances == old(base.instances)
      ensures old(done) || !(0 <= ActionValue(action) <= 3) ==>
        r.Err? && position == old(position) && done == old(done) &&
        base.agentsData == old(base.agentsData) && base.cumulative == old(base.cumulative)
      ensures !old(done) && 0 <= ActionValue(action) <= 3 ==>
        position == Min(old(position) + ActionValue(action), GridSize - 1) &&
        done == Ends(position) &&
        base.cumulative == Credited(old(base.cumulative), 0, RewardAt(position)) &&
        (0 in old(base.agentsData) ==>
          r.Ok? &&
          base.agentsData == WithReport(old(base.agentsData), 0,
            StepReport(old(Observe()), action, RewardAt(position), Observe(), if done then Terminated else Running))) &&
        (0 !in old(base.agentsData) ==> r.Err? && base.agentsData == old(base.agentsData))
    {
      if done {
        return Err("Episode has terminated. Please reset the env.");
      }
      var move := ActionValue(action);
      if move < 0 || move > 3 {
        return Err("Invalid action for FrozenLake.");
      }
      var prevObs := Observe();
      var reward := -0.01;
      position := position + move;
      if position >= GridSize {
        position := GridSize - 1;
      }
      var newObs := Observe();
      if IsHole(position) {
        reward := -1.0;
        done := true;
      }
      if position == Goal {
        done := true;
        reward := 1.0;
      }
      base.cumulative := Credited(base.cumulative, 0, reward);
      if 0 !in base.agentsData {
        return Err("unordered_map::at");
      }
      base.agentsData := WithReport(base.agentsData, 0,
        StepReport(prevObs, action, reward, newObs, if done then Terminated else Running));
      r := Ok(());
    }

    /** `snapshot`: the position. */
    function Snapshot(): (s: int)
      reads this
      ensures s == position
    {
      position
    }

    /** `restore`: the position, done when it is the goal or a hole, reports cleared. */
    method Restore(s: int)
      modifies this, base
      ensures Snapshot() == s && done == Ends(s)
      ensures base.agentsData == Cleared(old(base.agentsData))
      ensures base.instances == old(base.instances) && base.cumulative == old(base.cumulative)
    {
      position := s;
      done := s == Goal || IsHole(s);
      base.agentsData := Cleared(base.agentsData);
    }
  }

  /**
   * The cell reached from p by the accepted moves, one `step` each, with
   * the steps after the episode has ended refused.
   */
  function Walk(p: int, moves: seq<int>): int
    requires forall i :: 0 <= i < |moves| ==> 0 <= moves[i] <= 3
    decreases |moves|
  {
    if |moves| == 0 || Ends(p) then p else Walk(Min(p + moves[0], GridSize - 1), moves[1..])
  }

  /** From a cell of the lake a walk never goes back and never leaves the lake. */
  lemma {:induction false} WalkStaysOnLake(p: int, moves: seq<int>)
    requires 0 <= p < GridSize
    requires forall i :: 0 <= i < |moves| ==> 0 <= moves[i] <= 3
    ensures p <= Walk(p, moves) < GridSize
    decreases |moves|
  {
    if |moves| > 0 && !Ends(p) {
      WalkStaysOnLake(Min(p + moves[0], GridSize - 1), moves[1..]);
    }
  }

  /** Once a walk has reached the goal or a hole, further moves change nothing. */
  lemma {:induction false} WalkStopsAtEnd(p: int, moves: seq<int>, more: seq<int>)
    requires forall i :: 0 <= i < |moves| ==> 0 <= moves[i] <= 3
    requires forall i :: 0 <= i < |more| ==> 0 <= more[i] <= 3
    requires Ends(Walk(p, moves))
    ensures forall i :: 0 <= i < |moves + more| ==> 0 <= (moves + more)[i] <= 3
    ensures Walk(p, moves + more) == Walk(p, moves)
    decreases |moves|
  {
    assert forall i :: 0 <= i < |moves + more| ==> 0 <= (moves + more)[i] <= 3 by {
      forall i | 0 <= i < |moves + more|
        ensures 0 <= (moves + more)[i] <= 3
      {
        if i >= |moves| {
          assert (moves + more)[i] == more[i - |moves|];
        }
      }
    }
    if |moves| > 0 && !Ends(p) {
      assert (moves + more)[1..] == moves[1..] + more;
      WalkStopsAtEnd(Min(p + moves[0], GridSize - 1), moves[1..], more);
    } else if |moves| == 0 {
      assert Ends(p);
    }
  }
}
