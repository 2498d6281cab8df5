// The agent bookkeeping every `talawa::env` environment inherits from
// include/talawa/env/interfaces/IEnvironment.hpp: the turn order, each
// agent's data and last step report, the bound agent instances and the
// cumulative rewards.
module Environments {
  import opened Common
  import opened MatrixSpec
  import opened Spaces

  /** `StepReport`: S_t, A_t, R_t, S_{t+1} and the status after the action. */
  datatype StepReport = StepReport(previousState: Mat, action: Mat, reward: real, resultingState: Mat, status: EpisodeStatus)

  /** `StepReport{}`: empty matrices, reward 0 and the first status. */
  const EmptyReport: StepReport := StepReport(NoAction, NoAction, 0.0, NoAction, Running)

  /** `AgentData`. */
  datatype AgentData = AgentData(id: nat, name: string, report: StepReport)

  /** `action.item<int>()`: the first cell, truncated. */
  function Item(action: Mat): int
    requires |action.data| > 0
  {
    Trunc(action.data[0])
  }

  /** A 1 x 1 observation holding v. */
  function Scalar(v: real): (m: Mat)
    ensures Wf(m) && m.rows == 1 && m.cols == 1 && Get(m, 0, 0) == v
  {
    Mat(1, 1, [v])
  }

  /** The loop that resets every registered agent's report to `StepReport{}`. */
  function Cleared(data: map<nat, AgentData>): (r: map<nat, AgentData>)
    ensures forall id :: id in r <==> id in data
    ensures forall id :: id in r ==> r[id] == AgentData(data[id].id, data[id].name, EmptyReport)
  {
    map id | id in data :: AgentData(data[id].id, data[id].name, EmptyReport)
  }

  /** `agents_data_.at(id).report = report` for a registered id. */
  function WithReport(data: map<nat, AgentData>, id: nat, report: StepReport): (r: map<nat, AgentData>)
    requires id in data
    ensures forall k :: k in r <==> k in data
    ensures r[id] == AgentData(data[id].id, data[id].name, report)
    ensures forall k :: k in data && k != id ==> r[k] == data[k]
  {
    data[id := AgentData(data[id].id, data[id].name, report)]
  }

  /** Writing an agent's report twice leaves only the second write. */
  lemma ReportRewrite(data: map<nat, AgentData>, id: nat, first: StepReport, second: StepReport)
    requires id in data
    ensures WithReport(WithReport(data, id, first), id, second) == WithReport(data, id, second)
  {
    var a := WithReport(WithReport(data, id, first), id, second);
    var b := WithReport(data, id, second);
    assert forall k :: k in a <==> k in b;
    assert forall k :: k in a ==> a[k] == b[k];
  }

  /** `cumulative_rewards_[id] += v`: a missing entry starts from 0. */
  function Credited(c: map<nat, real>, id: nat, v: real): (r: map<nat, real>)
    ensures forall k :: k in r <==> k in c || k == id
    ensures r[id] == (if id in c then c[id] else 0.0) + v
    ensures forall k :: k in c && k != id ==> r[k] == c[k]
  {
    c[id := (if id in c then c[id] else 0.0) + v]
  }

  /** The `IEnvironment` part of an environment. */
  class Registry {
    const agentOrder: seq<nat>
    var agentsData: map<nat, AgentData>
    var instances: map<nat, nat>
    var cumulative: map<nat, real>

    /** `IEnvironment({ids...})`: the turn order; nothing registered yet. */
    constructor (order: seq<nat>)
      ensures agentOrder == order && agentsData == map[] && instances == map[] && cumulative == map[]
    {
      agentOrder := order;
      agentsData := map[];
      instances := map[];
      cumulative := map[];
    }

    /** `get_total_reward`: the cumulative entry, or 0 for an id that has none. */
    function TotalReward(id: nat): (r: real)
      reads this
      ensures id in cumulative ==> r == cumulative[id]
      ensures id !in cumulative ==> r == 0.0
    {
      if id in cumulative then cumulative[id] else 0.0
    }

    /** `get_agent`: the bound instance; `.at` throws for an unknown id. */
    function GetAgent(id: nat): (r: Result<nat>)
      reads this
      ensures r.Ok? <==> id in instances
      ensures r.Ok? ==> r.value == instances[id]
    {
      if id in instances then Ok(instances[id]) else Err("unordered_map::at")
    }

    /** `get_agent_name`: `.at` throws for an unknown id. */
    function GetAgentName(id: nat): (r: Result<string>)
      reads this
      ensures r.Ok? <==> id in agentsData
      ensures r.Ok? ==> r.value == agentsData[id].name
    {
      if id in agentsData then Ok(agentsData[id].name) else Err("unordered_map::at")
    }

    /** `is_agent_available`: exactly the ids `get_agent` succeeds on. */
    function IsAgentAvailable(id: nat): (b: bool)
      reads this
      ensures b <==> GetAgent(id).Ok?
    {
      id in instances
    }

    /** The default `get_legal_mask`: no mask. */
    function DefaultLegalMask(id: nat): (m: Option<Mat>)
      ensures m == None
    {
      None
    }

    /**
     * `register_agent`: the agent's data is rewritten with the given name
     * and an empty report; `emplace` binds the instance only when the id
     * has none, so re-registering keeps the first instance.
     */
    method RegisterAgent(id: nat, agent: nat, name: string)
      modifies this
      ensures agentsData == old(agentsData)[id := AgentData(id, name, EmptyReport)]
      ensures id in old(instances) ==> instances == old(instances)
      ensures id !in old(instances) ==> instances == old(instances)[id := agent]
      ensures cumulative == old(cumulative)
      ensures IsAgentAvailable(id) && GetAgentName(id) == Ok(name)
      ensures GetAgent(id) == Ok(if id in old(instances) then old(instances)[id] else agent)
    {
      agentsData := agentsData[id := AgentData(id, name, EmptyReport)];
      if id !in instances {
        instances := instances[id := agent];
      }
    }
  }
}
