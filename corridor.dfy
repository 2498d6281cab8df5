// The corridor of src/env/Corridor.cpp: one agent walks left or right
// between 0 and the goal at 20, paying a little for every step.
module Corridors {
  import opened Common
  import opened MatrixSpec
  import opened Spaces
  import opened Environments

  const Goal: int := 20

  /** The observed value of a position: position / goal * 2 - 1. */
  function Normalized(position: int): real
  {
    (position as real / Goal as real) * 2.0 - 1.0
  }

  /** On the corridor the observation lies in [-1, 1], from -1 at 0 up to 1 at the goal. */
  lemma NormalizedRange(position: int)
    requires 0 <= position <= Goal
    ensures -1.0 <= Normalized(position) <= 1.0
    ensures Normalized(0) == -1.0 && Normalized(Goal) == 1.0
  {
    assert position as real / Goal as real == position as real / 20.0;
  }

  class Corridor {
    const base: Registry
    var position: int
    var done: bool

    ghost predicate Valid()
      reads this
    {
      |base.agentOrder| == 1 && base.agentOrder[0] == 0
    }

    /** `Corridor()`: agent 0, then `reset`. */
    constructor (draw: nat)
      ensures fresh(base) && Valid()
      ensures position == draw % (Goal / 2) && !done
      ensures base.agentsData == map[] && base.instances == map[] && base.cumulative == map[0 := 0.0]
    {
      base := new Registry([0]);
      position := draw % (Goal / 2);
      done := false;
      new;
      base.cumulative := base.cumulative[0 := 0.0];
    }

    /** `get_active_agent`: the only agent. */
    function ActiveAgent(): nat
      requires Valid()
      reads this
    {
      base.agentOrder[0]
    }

    /**
     * `reset`: `draw` is the value of `rand()`, so the start lies in the first
     * half of the corridor; the cumulative reward is zeroed and the reports
     * are kept.
     */
    method Reset(draw: nat)
      modifies this, base
      ensures position == draw % (Goal / 2) && 0 <= position < Goal / 2 && !done
      ensures base.cumulative == old(base.cumulative)[0 := 0.0]
      ensures base.agentsData == old(base.agentsData) && base.instances == old(base.instances)
    {
      position := draw % (Goal / 2);
      done := false;
      base.cumulative := base.cumulative[0 := 0.0];
    }

    /** `observe`: the normalized position. */
    function Observe(): (obs: Mat)
      reads this
      ensures Wf(obs) && obs.rows == 1 && obs.cols == 1 && Get(obs, 0, 0) == Normalized(position)
    {
      Scalar(Normalized(position))
    }

    /**
     * `step`: fails once the episode is over, and for an unregistered agent.
     * Otherwise the report records the observation and the action; an action
     * other than 0 (left, stopping at 0) or 1 (right, stopping at the goal)
     * fails with that report already written. Reaching the goal ends the
     * episode with reward 1; any other step costs 0.01. The reward is added
     * to the cumulative total.
     */
    method Step(action: Mat) returns (r: Result<()>)
      requires Valid() && |action.data| > 0
      modifies this, base
      ensures Valid() && base.instances == old(base.instances)
      ensures old(done) || ActiveAgent() !in old(base.agentsData) ==>
        r.Err? && position == old(position) && done == old(done) &&
        base.agentsData == old(base.agentsData) && base.cumulative == old(base.cumulative)
      ensures !old(done) && ActiveAgent() in old(base.agentsData) ==>
        var started := old(base.agentsData)[ActiveAgent()].report.(previousState := old(Observe()), action := action);
        if Item(action) != 0 && Item(action) != 1 then
          r == Err("Invalid action for Corridor environment.") &&
          position == old(position) && done == old(done) && base.cumulative == old(base.cumulative) &&
          base.agentsData == WithReport(old(base.agentsData), ActiveAgent(), started)
        else
          var reward := if position >= Goal then 1.0 else -0.01;
          r.Ok? &&
          position == (if Item(action) == 0 then Max(0, old(position) - 1) else Min(Goal, old(position) + 1)) &&
          done == (position >= Goal) &&
          base.agentsData == WithReport(old(base.agentsData), ActiveAgent(),
            started.(resultingState := Observe(), reward := reward, status := if done then Terminated else Running)) &&
          base.cumulative == Credited(old(base.cumulative), ActiveAgent(), reward)
    {
      if done {
        return Err("Episode has terminated. Please reset the environment.");
      }
      var agent := ActiveAgent();
      if agent !in base.agentsData {
        return Err("unordered_map::at");
      }
      ghost var data0 := base.agentsData;
      var report := base.agentsData[agent].report.(previousState := Observe(), action := action);
      base.agentsData := WithReport(base.agentsData, agent, report);
      var move := Item(action);
      if move == 0 {
        position := Max(0, position - 1);
      } else if move == 1 {
        position := Min(Goal, position + 1);
      } else {
        return Err("Invalid action for Corridor environment.");
      }
      if position >= Goal {
        done := true;
      }
      var reward := if done then 1.0 else -0.01;
      var finished := report.(resultingState := Observe(), reward := reward, status := if done then Terminated else Running);
      base.agentsData := WithReport(base.agentsData, agent, finished);
      ReportRewrite(data0, agent, report, finished);
      base.cumulative := Credited(base.cumulative, agent, reward);
      r := Ok(());
    }
  }
}
