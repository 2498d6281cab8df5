// The two-player game of sticks of include/talawa/env/SticksGameEnvironment.hpp:
// players take 1, 2 or 3 sticks in turn, and whoever takes the last one loses.
module SticksGame {
  import opened Common
  import opened MatrixSpec
  import opened Spaces
  import opened Environments

  const Player1: nat := 0
  const Player2: nat := 1

  /** Action a asks for a+1 sticks: 1 to 3 of them, and no more than remain. */
  predicate Accepts(remaining: int, a: int)
  {
    1 <= a + 1 <= 3 && a + 1 <= remaining
  }

  /** The mask `get_legal_mask` builds marks exactly the actions `step` accepts. */
  lemma MaskMatchesAccepts(remaining: int, i: int)
    requires 0 <= i < 3
    ensures i < Min(3, remaining) <==> Accepts(remaining, i)
  {}

  class StickGame {
    const base: Registry
    var initial: int
    var remaining: int
    var activeIndex: nat
    var done: bool

    ghost predicate Valid()
      reads this
    {
      |base.agentOrder| == 2 && base.agentOrder[0] == Player1 && base.agentOrder[1] == Player2 && activeIndex < 2
    }

    /** A game of num_sticks with PLAYER_1 to move. */
    constructor (numSticks: int)
      ensures fresh(base) && Valid()
      ensures initial == numSticks && remaining == numSticks && activeIndex == 0 && !done
      ensures base.agentsData == map[] && base.instances == map[] && base.cumulative == map[]
    {
      base := new Registry([Player1, Player2]);
      initial := numSticks;
      remaining := numSticks;
      activeIndex := 0;
      done := false;
    }

    /** `get_active_agent`. */
    function ActiveAgent(): nat
      requires Valid()
      reads this
    {
      base.agentOrder[activeIndex]
    }

    /** `reset`: always 21 sticks, whatever the game was created with, and cleared reports. */
    method Reset()
      modifies this, base
      ensures remaining == 21 && base.agentsData == Cleared(old(base.agentsData))
      ensures initial == old(initial) && activeIndex == old(activeIndex) && done == old(done)
      ensures base.instances == old(base.instances) && base.cumulative == old(base.cumulative)
    {
      remaining := 21;
      base.agentsData := Cleared(base.agentsData);
    }

    /** `observe`: the number of sticks left, for either agent. */
    function Observe(): (obs: Mat)
      reads this
      ensures Wf(obs) && obs.rows == 1 && obs.cols == 1 && Get(obs, 0, 0) == remaining as real
    {
      Scalar(remaining as real)
    }

    /**
     * `step`. The mover's report first records the observation and the
     * action (`.at` fails for an unregistered mover). A request outside 1..3
     * sticks, or for more than remain, fails after that. Otherwise the sticks
     * are taken; taking the last one costs the mover 1 and pays the other
     * agent 1, both Terminated; any other move reports 0 and Running. The
     * turn passes and done records whether the sticks ran out.
     */
    method Step(action: Mat) returns (r: Result<()>)
      requires Valid() && |action.data| > 0
      modifies this, base
      ensures Valid() && initial == old(initial) && base.instances == old(base.instances)
      ensures old(ActiveAgent()) !in old(base.agentsData) ==>
        r.Err? && remaining == old(remaining) && activeIndex == old(activeIndex) && done == old(done) &&
        base.agentsData == old(base.agentsData) && base.cumulative == old(base.cumulative)
      ensures old(ActiveAgent()) in old(base.agentsData) && !Accepts(old(remaining), Item(action)) ==>
        r.Err? && remaining == old(remaining) && activeIndex == old(activeIndex) && done == old(done) &&
        base.cumulative == old(base.cumulative) &&
        base.agentsData == WithReport(old(base.agentsData), old(ActiveAgent()),
          old(base.agentsData)[old(ActiveAgent())].report.(previousState := Scalar(old(remaining) as real), action := action))
      ensures old(ActiveAgent()) in old(base.agentsData) && Accepts(old(remaining), Item(action)) ==>
        remaining == old(remaining) - (Item(action) + 1) &&
        var mover := old(ActiveAgent());
        var other := base.agentOrder[(old(activeIndex) + 1) % 2];
        var moved := old(base.agentsData)[mover].report.(previousState := Scalar(old(remaining) as real),
                                                        action := action, resultingState := Scalar(remaining as real));
        if remaining <= 0 then
          var lost := WithReport(old(base.agentsData), mover, moved.(reward := -1.0, status := Terminated));
          var charged := Credited(old(base.cumulative), mover, -1.0);
          if other in old(base.agentsData) then
            r.Ok? && activeIndex == (old(activeIndex) + 1) % 2 && done &&
            base.agentsData == WithReport(lost, other, lost[other].report.(reward := 1.0, status := Terminated)) &&
            base.cumulative == Credited(charged, other, 1.0)
          else
            r.Err? && activeIndex == old(activeIndex) && done == old(done) &&
            base.agentsData == lost && base.cumulative == charged
        else
          r.Ok? && activeIndex == (old(activeIndex) + 1) % 2 && !done &&
          base.agentsData == WithReport(old(base.agentsData), mover, moved.(reward := 0.0, status := Running)) &&
          base.cumulative == old(base.cumulative)
    {
      ghost var data0 := base.agentsData;
      var mover := ActiveAgent();
      if mover !in base.agentsData {
        return Err("unordered_map::at");
      }
      var report := base.agentsData[mover].report.(previousState := Observe(), action := action);
      base.agentsData := WithReport(base.agentsData, mover, report);
      var taken := Item(action) + 1;
      if taken < 1 || taken > 3 {
        return Err("Invalid action: can only take 1, 2, or 3 sticks.");
      }
      if taken > remaining {
        return Err("Invalid action: cannot take more sticks than are remaining.");
      }
      remaining := remaining - taken;
      r := Settle(data0, report, mover, report.(resultingState := Observe()));
    }

    /**
     * The end of `step`, once the sticks are taken: the rewards and statuses
     * of the reports, the cumulative rewards, the turn and done.
     */
    method Settle(ghost data0: map<nat, AgentData>, ghost prior: StepReport, mover: nat, moved: StepReport) returns (r: Result<()>)
      requires Valid() && mover == ActiveAgent() && mover in data0
      requires base.agentsData == WithReport(data0, mover, prior)
      modifies this, base
      ensures Valid() && initial == old(initial) && remaining == old(remaining) && base.instances == old(base.instances)
      ensures var other := base.agentOrder[(old(activeIndex) + 1) % 2];
        if remaining <= 0 then
          var lost := WithReport(data0, mover, moved.(reward := -1.0, status := Terminated));
          var charged := Credited(old(base.cumulative), mover, -1.0);
          if other in data0 then
            r.Ok? && activeIndex == (old(activeIndex) + 1) % 2 && done &&
            base.agentsData == WithReport(lost, other, lost[other].report.(reward := 1.0, status := Terminated)) &&
            base.cumulative == Credited(charged, other, 1.0)
          else
            r.Err? && activeIndex == old(activeIndex) && done == old(done) &&
            base.agentsData == lost && base.cumulative == charged
        else
          r.Ok? && activeIndex == (old(activeIndex) + 1) % 2 && !done &&
          base.agentsData == WithReport(data0, mover, moved.(reward := 0.0, status := Running)) &&
          base.cumulative == old(base.cumulative)
    {
      assert (activeIndex + 1) % 2 == 1 - activeIndex;
      if remaining <= 0 {
        var lost := moved.(reward := -1.0, status := Terminated);
        base.agentsData := WithReport(base.agentsData, mover, lost);
        ReportRewrite(data0, mover, prior, lost);
        assert base.agentsData == WithReport(data0, mover, lost);
        base.cumulative := Credited(base.cumulative, mover, -1.0);
        var other := base.agentOrder[(activeIndex + 1) % 2];
        if other !in base.agentsData {
          return Err("unordered_map::at");
        }
        var won := base.agentsData[other].report.(reward := 1.0, status := Terminated);
        base.agentsData := WithReport(base.agentsData, other, won);
        base.cumulative := Credited(base.cumulative, other, 1.0);
      } else {
        var running := moved.(reward := 0.0, status := Running);
        base.agentsData := WithReport(base.agentsData, mover, running);
        ReportRewrite(data0, mover, prior, running);
      }
      activeIndex := (activeIndex + 1) % 2;
      done := remaining <= 0;
      r := Ok(());
    }

    /** `get_legal_mask`: the first min(3, remaining) of three entries are 1. */
    method LegalMask() returns (mask: Option<Mat>)
      ensures mask.Some? && Wf(mask.value) && mask.value.rows == 1 && mask.value.cols == 3
      ensures forall i :: 0 <= i < 3 ==> Get(mask.value, 0, i) == if i < Min(3, remaining) then 1.0 else 0.0
    {
      var m := Zeros(1, 3);
      var maxTake := Min(3, remaining);
      var i := 0;
      while i < maxTake
        invariant 0 <= i && (maxTake >= 0 ==> i <= maxTake) && (maxTake < 0 ==> i == 0) && Wf(m) && m.rows == 1 && m.cols == 3
        invariant forall j :: 0 <= j < 3 ==> Get(m, 0, j) == if j < i then 1.0 else 0.0
      {
        m := Set(m, 0, i, 1.0);
        i := i + 1;
      }
      mask := Some(m);
    }

    /** `snapshot`: the count cast to `uint8_t`, which keeps it only when it is in 0..255. */
    function Snapshot(): (b: nat)
      reads this
      ensures b < 256 && (remaining - b) % 256 == 0
      ensures 0 <= remaining < 256 ==> b == remaining
    {
      remaining % 256
    }

    /** `restore`. */
    method Restore(b: nat)
      requires b < 256
      modifies this
      ensures remaining == b && initial == old(initial) && activeIndex == old(activeIndex) && done == old(done)
    {
      remaining := b;
    }
  }
}
