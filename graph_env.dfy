// The graph walk of src/env/GraphEnvironment.cpp: every node has max_edges
// outgoing edge slots, an action picks a slot, and an edge may be a trap
// or lead to the goal.
module GraphEnvironments {
  import opened Common
  import opened MatrixSpec
  import opened GameStates

  /** `INVALID_NODE`: the target of an empty edge slot. */
  const InvalidNode: int := -1

  datatype Edge = Edge(to: int, reward: real, isTrap: bool)

  /** The value every slot starts with. */
  const NoEdge: Edge := Edge(InvalidNode, 0.0, false)

  /** `GraphEnvironmentGameState`: the current node and whether the episode is over. */
  datatype GraphState = GraphState(node: int, done: bool)

  /** The action index after clamping into [0, maxEdges - 1]. */
  function ClampAction(a: int, maxEdges: nat): (k: int)
    requires maxEdges > 0
    ensures 0 <= k < maxEdges
    ensures 0 <= a < maxEdges ==> k == a
    ensures a < 0 ==> k == 0
    ensures a >= maxEdges ==> k == maxEdges - 1
  {
    if a < 0 then 0 else if a >= maxEdges then maxEdges - 1 else a
  }

  class GraphEnvironment {
    const numNodes: nat
    const maxEdges: nat
    const startNode: int
    const goalNode: int
    var node: int
    var done: bool
    var edges: seq<seq<Edge>>

    /** The slot table is numNodes x maxEdges and every used slot targets a node. */
    ghost predicate Valid()
      reads this
    {
      |edges| == numNodes &&
      (forall i :: 0 <= i < numNodes ==> |edges[i]| == maxEdges) &&
      (forall i, k :: 0 <= i < numNodes && 0 <= k < |edges[i]| ==>
         edges[i][k].to == InvalidNode || 0 <= edges[i][k].to < numNodes)
    }

    /** Every node gets maxEdges empty slots; the walk starts at startNode. */
    constructor (numNodes: nat, maxEdges: nat, startNode: int, goalNode: int)
      ensures this.numNodes == numNodes && this.maxEdges == maxEdges
      ensures this.startNode == startNode && this.goalNode == goalNode
      ensures Valid() && node == startNode && !done
      ensures forall i, k :: 0 <= i < numNodes && 0 <= k < maxEdges ==> edges[i][k] == NoEdge
    {
      this.numNodes := numNodes;
      this.maxEdges := maxEdges;
      this.startNode := startNode;
      this.goalNode := goalNode;
      node := startNode;
      done := false;
      var rows: seq<seq<Edge>> := [];
      var i := 0;
      while i < numNodes
        invariant 0 <= i <= numNodes && |rows| == i
        invariant forall r :: 0 <= r < i ==> rows[r] == seq(maxEdges, _ => NoEdge)
      {
        rows := rows + [seq(maxEdges, _ => NoEdge)];
        i := i + 1;
      }
      edges := rows;
    }

    /**
     * `add_edge`: fails on a source or target outside the graph, then on a
     * slot outside [0, maxEdges); otherwise overwrites exactly that slot.
     */
    method AddEdge(from: int, edgeIndex: int, to: int, reward: real, isTrap: bool) returns (r: Result<()>)
      requires Valid()
      modifies this
      ensures Valid() && node == old(node) && done == old(done)
      ensures !(0 <= from < numNodes && 0 <= to < numNodes) ==> r == Err("Invalid node index in add_edge")
      ensures 0 <= from < numNodes && 0 <= to < numNodes && !(0 <= edgeIndex < maxEdges) ==>
        r == Err("Invalid edge index in add_edge")
      ensures r.Err? ==> edges == old(edges)
      ensures r.Ok? <==> 0 <= from < numNodes && 0 <= to < numNodes && 0 <= edgeIndex < maxEdges
      ensures r.Ok? ==> forall i, k :: 0 <= i < numNodes && 0 <= k < maxEdges ==>
        edges[i][k] == if i == from && k == edgeIndex then Edge(to, reward, isTrap) else old(edges)[i][k]
    {
      if from < 0 || from >= numNodes || to < 0 || to >= numNodes {
        return Err("Invalid node index in add_edge");
      }
      if edgeIndex < 0 || edgeIndex >= maxEdges {
        return Err("Invalid edge index in add_edge");
      }
      edges := edges[from := edges[from][edgeIndex := Edge(to, reward, isTrap)]];
      r := Ok(());
    }

    /** `reset`: back to the start node with the episode running. */
    method Reset()
      modifies this
      ensures node == startNode && !done && edges == old(edges)
    {
      node := startNode;
      done := false;
    }

    /** `observe`: a 1 x numNodes one-hot row on the current node (all zeros off the graph). */
    function Observe(): (obs: Mat)
      reads this
      ensures Wf(obs) && obs.rows == 1 && obs.cols == numNodes
      ensures forall j :: 0 <= j < numNodes ==> Get(obs, 0, j) == if j == node then 1.0 else 0.0
    {
      OneHot(numNodes, node)
    }

    /** `snapshot`. */
    function Snapshot(): (s: GraphState)
      reads this
      ensures s.node == node && s.done == done
    {
      GraphState(node, done)
    }

    /** `restore`: node and done are taken from the snapshot. */
    method Restore(s: GraphState)
      modifies this
      ensures Snapshot() == s && edges == old(edges)
    {
      node := s.node;
      done := s.done;
    }

    /**
     * `step`: fails once the episode is over. Otherwise the clamped action
     * picks a slot of the current node: an empty slot keeps the node and
     * costs 0.1; an edge moves to its target and pays its reward, except
     * that a trap ends the episode with -1, and reaching the goal ends it.
     */
    method Step(action: Mat) returns (r: Result<Transition<GraphState>>)
      requires Valid() && HasCell(action) && maxEdges > 0 && 0 <= node < numNodes
      modifies this
      ensures Valid() && edges == old(edges) && 0 <= node < numNodes
      ensures old(done) ==> r.Err? && node == old(node) && done
      ensures !old(done) ==> r.Ok? && r.value.state == GraphState(old(node), false) && r.value.action == action
      ensures r.Ok? ==> r.value.nextState == Snapshot() && r.value.terminated == done
      ensures !old(done) ==>
        var e := edges[old(node)][ClampAction(ActionValue(action), maxEdges)];
        if e.to == InvalidNode then
          node == old(node) && !done && r.value.reward == -0.1
        else
          node == e.to &&
          (e.isTrap ==> done && r.value.reward == -1.0) &&
          (!e.isTrap ==> done == (e.to == goalNode) && r.value.reward == e.reward)
    {
      if done {
        return Err("Cannot step in a finished environment. Please reset.");
      }
      var prev := Snapshot();
      var k := ActionValue(action);
      if k < 0 { k := 0; }
      if k >= maxEdges { k := maxEdges - 1; }
      var e := edges[node][k];
      var reward := 0.0;
      if e.to == InvalidNode {
        reward := -0.1;
      } else {
        node := e.to;
        reward := e.reward;
        if e.isTrap {
          done := true;
          reward := -1.0;
        } else if node == goalNode {
          done := true;
        }
      }
      r := Ok(Transition(prev, action, reward, Snapshot(), done));
    }

    /** `get_legal_mask`: 1 exactly at the slots of the current node that hold an edge. */
    method LegalMask() returns (mask: Option<Mat>)
      requires Valid() && 0 <= node < numNodes
      ensures mask.Some? && Wf(mask.value) && mask.value.rows == 1 && mask.value.cols == maxEdges
      ensures forall k :: 0 <= k < maxEdges ==>
        Get(mask.value, 0, k) == if edges[node][k].to != InvalidNode then 1.0 else 0.0
    {
      var m := Zeros(1, maxEdges);
      var k := 0;
      while k < maxEdges
        invariant 0 <= k <= maxEdges && Wf(m) && m.rows == 1 && m.cols == maxEdges
        invariant forall j :: 0 <= j < maxEdges ==>
          Get(m, 0, j) == if j < k && edges[node][j].to != InvalidNode then 1.0 else 0.0
      {
        m := Set(m, 0, k, if edges[node][k].to != InvalidNode then 1.0 else 0.0);
        k := k + 1;
      }
      mask := Some(m);
    }
  }
}
