// The two-agent tic-tac-toe of src/env/TicTacToe.cpp: agent 0 marks 1.0 and
// agent 1 marks -1.0 on a 3 x 3 matrix; a line of three wins, a full board
// without one is a draw.
module TicTacToes {
  import opened Common
  import opened MatrixSpec
  import opened Spaces
  import opened Environments
  import TicTacToeEnvironments

  /** The board is a 3 x 3 matrix. */
  ghost predicate IsBoard(b: Mat)
  {
    Wf(b) && b.rows == 3 && b.cols == 3
  }

  /** The mark of the agent at `active_agent_index_`. */
  function MarkOf(activeIndex: nat): real
  {
    if activeIndex == 0 then 1.0 else -1.0
  }

  /** Every cell is empty (0) or holds one of the two marks. */
  ghost predicate Marked(b: Mat)
    requires IsBoard(b)
  {
    forall r, c :: 0 <= r < 3 && 0 <= c < 3 ==> Get(b, r, c) in {0.0, 1.0, -1.0}
  }

  /** The bounds test of `step`: row index / 3 and column index % 3, both truncated as in C++. */
  predicate InBounds(index: int)
  {
    0 <= CDiv(index, 3) < 3 && 0 <= CMod(index, 3) < 3
  }

  /** The truncating bounds test lets exactly the indices 0..8 through, on their own row and column. */
  lemma InBoundsExactly(index: int)
    ensures InBounds(index) <==> 0 <= index <= 8
    ensures InBounds(index) ==> CDiv(index, 3) == index / 3 && CMod(index, 3) == index % 3
  {
    if index < 0 {
      if -index < 3 {
        assert CDiv(index, 3) == 0;
      } else {
        assert (-index) / 3 >= 1;
      }
    } else if index >= 9 {
      assert index / 3 >= 3;
    }
  }

  /** `step` accepts the index: it names a cell of the board, and that cell is empty. */
  ghost predicate Accepts(b: Mat, index: int)
    requires IsBoard(b)
  {
    0 <= index <= 8 && Get(b, index / 3, index % 3) == 0.0
  }

  /**
   * The bounds test of `step` on its own: the cell the index names, when
   * the truncated row and column are both on the board.
   */
  function Locate(index: int): (loc: Option<(int, int)>)
    ensures loc.Some? <==> 0 <= index <= 8
    ensures loc.Some? ==> loc.value == (index / 3, index % 3)
  {
    InBoundsExactly(index);
    var row := CDiv(index, 3);
    var col := CMod(index, 3);
    if row < 0 || row >= 3 || col < 0 || col >= 3 then None else Some((row, col))
  }

  /** Row i holds the mark three times. */
  ghost predicate RowOf(b: Mat, i: int, mark: real)
    requires IsBoard(b) && 0 <= i < 3
  {
    Get(b, i, 0) == mark && Get(b, i, 1) == mark && Get(b, i, 2) == mark
  }

  /** Column i holds the mark three times. */
  ghost predicate ColOf(b: Mat, i: int, mark: real)
    requires IsBoard(b) && 0 <= i < 3
  {
    Get(b, 0, i) == mark && Get(b, 1, i) == mark && Get(b, 2, i) == mark
  }

  /** Row i or column i holds the mark three times. */
  ghost predicate LineAt(b: Mat, i: int, mark: real)
    requires IsBoard(b) && 0 <= i < 3
  {
    RowOf(b, i, mark) || ColOf(b, i, mark)
  }

  /** The win test of `step`: a row, a column or one of the two diagonals. */
  ghost predicate Won(b: Mat, mark: real)
    requires IsBoard(b)
  {
    (exists i :: 0 <= i < 3 && LineAt(b, i, mark)) ||
    (Get(b, 0, 0) == mark && Get(b, 1, 1) == mark && Get(b, 2, 2) == mark) ||
    (Get(b, 0, 2) == mark && Get(b, 1, 1) == mark && Get(b, 2, 0) == mark)
  }

  /** The cell of flat index k, 0 <= k < 9. */
  ghost function Cell(b: Mat, k: nat): real
    requires IsBoard(b) && k < 9
  {
    Get(b, k / 3, k % 3)
  }

  /** The three cells of a line of the table hold the mark. */
  ghost predicate LineOwned(b: Mat, mark: real, line: seq<nat>)
    requires IsBoard(b)
  {
    |line| == 3 && line[0] < 9 && line[1] < 9 && line[2] < 9 &&
    Cell(b, line[0]) == mark && Cell(b, line[1]) == mark && Cell(b, line[2]) == mark
  }

  /** A line found by the scan of `step` is one of the eight lines of the table. */
  lemma WonHasLine(b: Mat, mark: real)
    requires IsBoard(b) && Won(b, mark)
    ensures exists j :: 0 <= j < 8 && LineOwned(b, mark, TicTacToeEnvironments.Lines[j])
  {
    var L := TicTacToeEnvironments.Lines;
    if exists i :: 0 <= i < 3 && LineAt(b, i, mark) {
      var i :| 0 <= i < 3 && LineAt(b, i, mark);
      if RowOf(b, i, mark) {
        assert L[i] == [3 * i, 3 * i + 1, 3 * i + 2];
        assert LineOwned(b, mark, L[i]);
      } else {
        assert L[3 + i] == [i, 3 + i, 6 + i];
        assert LineOwned(b, mark, L[3 + i]);
      }
    } else if Get(b, 0, 0) == mark && Get(b, 1, 1) == mark && Get(b, 2, 2) == mark {
      assert L[6] == [0, 4, 8];
      assert LineOwned(b, mark, L[6]);
    } else {
      assert L[7] == [2, 4, 6];
      assert LineOwned(b, mark, L[7]);
    }
  }

  /** Each of the eight lines of the table is found by the scan of `step`. */
  lemma LineIsWon(b: Mat, mark: real, j: int)
    requires IsBoard(b) && 0 <= j < 8
    requires LineOwned(b, mark, TicTacToeEnvironments.Lines[j])
    ensures Won(b, mark)
  {
    var L := TicTacToeEnvironments.Lines;
    if j < 3 {
      assert L[j] == [3 * j, 3 * j + 1, 3 * j + 2];
      assert LineAt(b, j, mark);
    } else if j < 6 {
      assert L[j] == [j - 3, j, j + 3];
      assert LineAt(b, j - 3, mark);
    } else if j == 6 {
      assert L[j] == [0, 4, 8];
    } else {
      assert L[j] == [2, 4, 6];
    }
  }

  /** The draw test of `step`: no cell is empty. */
  ghost predicate Full(b: Mat)
    requires IsBoard(b)
  {
    forall r, c :: 0 <= r < 3 && 0 <= c < 3 ==> Get(b, r, c) != 0.0
  }

  /** `observe`: the board flattened row by row into a 1 x 9 matrix. */
  function Flat(b: Mat): (obs: Mat)
    requires IsBoard(b)
    ensures Wf(obs) && obs.rows == 1 && obs.cols == 9
    ensures forall r, c :: 0 <= r < 3 && 0 <= c < 3 ==> Get(obs, 0, r * 3 + c) == Get(b, r, c)
  {
    Mat(1, 9, b.data)
  }

  /** Every id of `ids` has data. */
  predicate AllIn(data: map<nat, AgentData>, ids: seq<nat>)
  {
    forall k :: 0 <= k < |ids| ==> ids[k] in data
  }

  /**
   * The draw loop of `step`: each id of the turn order in turn gets reward
   * 0 and Terminated, until the first id with no data, where `.at` throws.
   */
  function MarkDrawn(data: map<nat, AgentData>, ids: seq<nat>): (r: map<nat, AgentData>)
    ensures forall k :: k in r <==> k in data
    decreases |ids|
  {
    if |ids| == 0 then data
    else
      var p := MarkDrawn(data, ids[..|ids| - 1]);
      var x := ids[|ids| - 1];
      if AllIn(data, ids) then WithReport(p, x, p[x].report.(reward := 0.0, status := Terminated)) else p
  }

  /**
   * When every id is registered, the draw loop gives each of them reward 0
   * and Terminated and leaves the rest of the report and every other agent
   * as they were.
   */
  lemma {:induction false} MarkDrawnReports(data: map<nat, AgentData>, ids: seq<nat>)
    requires AllIn(data, ids)
    ensures forall k :: k in data && k in ids ==>
      MarkDrawn(data, ids)[k] == AgentData(data[k].id, data[k].name, data[k].report.(reward := 0.0, status := Terminated))
    ensures forall k :: k in data && k !in ids ==> MarkDrawn(data, ids)[k] == data[k]
    decreases |ids|
  {
    if |ids| > 0 {
      var init := ids[..|ids| - 1];
      assert AllIn(data, init) by {
        forall k | 0 <= k < |init| ensures init[k] in data {
          assert init[k] == ids[k];
        }
      }
      MarkDrawnReports(data, init);
      assert forall k :: k in ids <==> k in init || k == ids[|ids| - 1] by {
        assert ids == init + [ids[|ids| - 1]];
      }
    }
  }

  /** The agents' data, the cumulative rewards, whether the turn passes, done, and success. */
  datatype Conclusion = Conclusion(data: map<nat, AgentData>, cumulative: map<nat, real>, passes: bool, done: bool, ok: bool)

  /** One more turn of the draw loop, when every id so far is registered. */
  lemma MarkDrawnNext(data: map<nat, AgentData>, ids: seq<nat>, i: int)
    requires 0 <= i < |ids| && AllIn(data, ids[..i + 1])
    ensures var p := MarkDrawn(data, ids[..i]);
      ids[i] in p && MarkDrawn(data, ids[..i + 1]) == WithReport(p, ids[i], p[ids[i]].report.(reward := 0.0, status := Terminated))
  {
    assert ids[..i + 1][..i] == ids[..i];
    assert ids[..i + 1][i] == ids[i];
  }

  /** The draw loop stops at the first id with no data: the ids after it are left alone. */
  lemma {:induction false} MarkDrawnStops(data: map<nat, AgentData>, ids: seq<nat>, i: int)
    requires 0 <= i < |ids| && ids[i] !in data
    ensures !AllIn(data, ids) && MarkDrawn(data, ids) == MarkDrawn(data, ids[..i])
    decreases |ids|
  {
    if i < |ids| - 1 {
      var init := ids[..|ids| - 1];
      assert init[i] == ids[i] && init[..i] == ids[..i];
      MarkDrawnStops(data, init, i);
    } else {
      assert ids[..i] == ids[..|ids| - 1];
    }
  }

  /**
   * What the end of `step` does once the mark is placed and the mover's
   * report holds the observations: the mover's line wins (1 for the mover,
   * -1 for the other agent, whose `.at` may throw), a full board draws, and
   * otherwise the game goes on with the other agent to move.
   */
  ghost function Conclude(b: Mat, mark: real, mover: nat, other: nat, order: seq<nat>,
                          data0: map<nat, AgentData>, moved: StepReport, cum0: map<nat, real>): Conclusion
    requires IsBoard(b) && mover in data0
  {
    if Won(b, mark) then
      var won := WithReport(data0, mover, moved.(reward := 1.0, status := Terminated));
      var credited := Credited(cum0, mover, 1.0);
      if other in data0 then
        Conclusion(WithReport(won, other, won[other].report.(reward := -1.0, status := Terminated)),
                   Credited(credited, other, -1.0), false, true, true)
      else
        Conclusion(won, credited, false, true, false)
    else if Full(b) then
      Conclusion(MarkDrawn(WithReport(data0, mover, moved), order), cum0, false, true, AllIn(data0, order))
    else
      Conclusion(WithReport(data0, mover, moved.(reward := 0.0, status := Running)), cum0, true, false, true)
  }

  /**
   * The draw loop of `step` over the turn order: reward 0 and Terminated
   * for each id, failing at the first id with no data.
   */
  method DrawLoop(data1: map<nat, AgentData>, order: seq<nat>) returns (data: map<nat, AgentData>, ok: bool)
    ensures data == MarkDrawn(data1, order) && (ok <==> AllIn(data1, order))
  {
    data := data1;
    var i := 0;
    while i < |order|
      invariant 0 <= i <= |order| && AllIn(data1, order[..i])
      invariant data == MarkDrawn(data1, order[..i])
    {
      var id := order[i];
      if id !in data {
        MarkDrawnStops(data1, order, i);
        return data, false;
      }
      assert AllIn(data1, order[..i + 1]) by {
        assert forall k :: 0 <= k < i ==> order[..i + 1][k] == order[..i][k];
      }
      MarkDrawnNext(data1, order, i);
      data := WithReport(data, id, data[id].report.(reward := 0.0, status := Terminated));
      i := i + 1;
    }
    assert order[..i] == order;
    ok := true;
  }

  /** The row, column and diagonal scan of `step`. */
  method CheckWin(b: Mat, mark: real) returns (win: bool)
    requires IsBoard(b)
    ensures win <==> Won(b, mark)
  {
    win := false;
    var i := 0;
    while i < 3
      invariant 0 <= i <= 3
      invariant win <==> exists k :: 0 <= k < i && LineAt(b, k, mark)
    {
      if Get(b, i, 0) == mark && Get(b, i, 1) == mark && Get(b, i, 2) == mark {
        win := true;
      }
      if Get(b, 0, i) == mark && Get(b, 1, i) == mark && Get(b, 2, i) == mark {
        win := true;
      }
      assert win <==> (exists k :: 0 <= k < i && LineAt(b, k, mark)) || LineAt(b, i, mark);
      i := i + 1;
    }
    if Get(b, 0, 0) == mark && Get(b, 1, 1) == mark && Get(b, 2, 2) == mark {
      win := true;
    }
    if Get(b, 0, 2) == mark && Get(b, 1, 1) == mark && Get(b, 2, 0) == mark {
      win := true;
    }
  }

  /** The draw scan of `step`, leaving both loops at the first empty cell. */
  method IsDraw(b: Mat) returns (draw: bool)
    requires IsBoard(b)
    ensures draw <==> Full(b)
  {
    draw := true;
    var r := 0;
    while r < 3
      invariant 0 <= r <= 3
      invariant draw ==> forall r2, c :: 0 <= r2 < r && 0 <= c < 3 ==> Get(b, r2, c) != 0.0
      invariant !draw ==> !Full(b)
    {
      var c := 0;
      while c < 3
        invariant 0 <= c <= 3 && draw
        invariant forall c2 :: 0 <= c2 < c ==> Get(b, r, c2) != 0.0
      {
        if Get(b, r, c) == 0.0 {
          draw := false;
          break;
        }
        c := c + 1;
      }
      if !draw {
        break;
      }
      r := r + 1;
    }
  }

  class TicTacToe {
    const base: Registry
    var board: Mat
    var activeIndex: nat
    var done: bool

    ghost predicate Valid()
      reads this
    {
      |base.agentOrder| == 2 && base.agentOrder[0] == 0 && base.agentOrder[1] == 1 &&
      activeIndex < 2 && IsBoard(board)
    }

    /** `TicTacToe()`: agents 0 and 1, an empty board, then `reset`. */
    constructor ()
      ensures fresh(base) && Valid() && Marked(board)
      ensures board == Zeros(3, 3) && activeIndex == 0 && !done
      ensures base.agentsData == map[] && base.instances == map[] && base.cumulative == map[0 := 0.0, 1 := 0.0]
    {
      base := new Registry([0, 1]);
      board := Zeros(3, 3);
      activeIndex := 0;
      done := false;
      new;
      base.cumulative := base.cumulative[0 := 0.0][1 := 0.0];
    }

    /** `get_active_agent`. */
    function ActiveAgent(): nat
      requires Valid()
      reads this
    {
      base.agentOrder[activeIndex]
    }

    /** `reset`: an empty board, agent 0 to move, both totals zeroed, reports cleared. */
    method Reset()
      requires Valid()
      modifies this, base
      ensures Valid() && Marked(board)
      ensures board == Zeros(3, 3) && activeIndex == 0 && !done
      ensures base.cumulative == old(base.cumulative)[0 := 0.0][1 := 0.0]
      ensures base.agentsData == Cleared(old(base.agentsData)) && base.instances == old(base.instances)
    {
      board := Zeros(3, 3);
      activeIndex := 0;
      done := false;
      base.cumulative := base.cumulative[0 := 0.0][1 := 0.0];
      base.agentsData := Cleared(base.agentsData);
    }

    /** `observe`: the two loops copy cell (r, c) to entry r * 3 + c. */
    method Observe() returns (obs: Mat)
      requires Valid()
      ensures obs == Flat(board)
    {
      var data := [];
      var r := 0;
      while r < 3
        invariant 0 <= r <= 3 && data == board.data[..r * 3]
      {
        var c := 0;
        while c < 3
          invariant 0 <= c <= 3 && data == board.data[..r * 3 + c]
        {
          assert Get(board, r, c) == board.data[r * 3 + c];
          data := data + [Get(board, r, c)];
          c := c + 1;
        }
        r := r + 1;
      }
      assert board.data[..9] == board.data;
      obs := Mat(1, 9, data);
    }

    /** `get_legal_mask`: entry i is 1 exactly when `step` accepts index i. */
    method LegalMask() returns (mask: Option<Mat>)
      requires Valid()
      ensures mask.Some? && Wf(mask.value) && mask.value.rows == 1 && mask.value.cols == 9
      ensures forall i :: 0 <= i < 9 ==> Get(mask.value, 0, i) == if Accepts(board, i) then 1.0 else 0.0
    {
      var m := Zeros(1, 9);
      var i := 0;
      while i < 9
        invariant 0 <= i <= 9 && Wf(m) && m.rows == 1 && m.cols == 9
        invariant forall k :: 0 <= k < i ==> Get(m, 0, k) == if Accepts(board, k) then 1.0 else 0.0
      {
        var row := i / 3;
        var col := i % 3;
        if Get(board, row, col) == 0.0 {
          m := Set(m, 0, i, 1.0);
        } else {
          m := Set(m, 0, i, 0.0);
        }
        i := i + 1;
      }
      mask := Some(m);
    }

    /**
     * `step`. Fails once the game is over, and for an unregistered mover,
     * changing nothing. The mover's report then records the observation and
     * the action; an index off the board or on a taken cell fails after
     * that. Otherwise the mover's mark is placed, the report records the new
     * observation, and the game is concluded as `Conclude` says.
     */
    method Step(action: Mat) returns (r: Result<()>)
      requires Valid() && |action.data| > 0
      modifies this, base
      ensures Valid() && base.instances == old(base.instances)
      ensures old(Marked(board)) ==> Marked(board)
      ensures old(done) || old(ActiveAgent()) !in old(base.agentsData) ==>
        r.Err? && board == old(board) && activeIndex == old(activeIndex) && done == old(done) &&
        base.agentsData == old(base.agentsData) && base.cumulative == old(base.cumulative)
      ensures !old(done) && old(ActiveAgent()) in old(base.agentsData) ==>
        var mover := old(ActiveAgent());
        var started := old(base.agentsData)[mover].report.(previousState := Flat(old(board)), action := action);
        if !Accepts(old(board), Item(action)) then
          r.Err? && board == old(board) && activeIndex == old(activeIndex) && done == old(done) &&
          base.cumulative == old(base.cumulative) &&
          base.agentsData == WithReport(old(base.agentsData), mover, started)
        else
          board == Set(old(board), Item(action) / 3, Item(action) % 3, MarkOf(old(activeIndex))) &&
          Conclude(board, MarkOf(old(activeIndex)), mover, base.agentOrder[(old(activeIndex) + 1) % 2], base.agentOrder,
                    old(base.agentsData), started.(resultingState := Flat(board)), old(base.cumulative)) ==
                    Conclusion(base.agentsData, base.cumulative, activeIndex == 1 - old(activeIndex), done, r.Ok?)
    {
      if done {
        return Err("Game is already over.");
      }
      var mover := ActiveAgent();
      if mover !in base.agentsData {
        return Err("unordered_map::at");
      }
      ghost var data0 := base.agentsData;
      var prev := Observe();
      var started := base.agentsData[mover].report.(previousState := prev, action := action);
      base.agentsData := WithReport(base.agentsData, mover, started);
      r := Place(data0, started, mover, Item(action));
    }

    /** The checks of `step` on the index: on the board, and on an empty cell. */
    method Place(ghost data0: map<nat, AgentData>, started: StepReport, mover: nat, index: int) returns (r: Result<()>)
      requires Valid() && mover == ActiveAgent() && mover in data0 && !done
      requires base.agentsData == WithReport(data0, mover, started)
      modifies this, base
      ensures Valid() && base.instances == old(base.instances)
      ensures old(Marked(board)) ==> Marked(board)
      ensures !Accepts(old(board), index) ==>
        r.Err? && board == old(board) && activeIndex == old(activeIndex) && done == old(done) &&
        base.cumulative == old(base.cumulative) && base.agentsData == old(base.agentsData)
      ensures Accepts(old(board), index) ==>
        board == Set(old(board), index / 3, index % 3, MarkOf(old(activeIndex))) &&
        Conclude(board, MarkOf(old(activeIndex)), mover, base.agentOrder[(old(activeIndex) + 1) % 2], base.agentOrder,
                  data0, started.(resultingState := Flat(board)), old(base.cumulative)) ==
                  Conclusion(base.agentsData, base.cumulative, activeIndex == 1 - old(activeIndex), done, r.Ok?)
    {
      var loc := Locate(index);
      if loc.None? {
        return Err("Invalid action: position out of bounds.");
      }
      var (row, col) := loc.value;
      if Get(board, row, col) != 0.0 {
        return Err("Invalid action: position already taken.");
      }
      r := Play(data0, started, mover, row, col);
    }

    /** The second half of `step`: the mark is placed and recorded, then the game concluded. */
    method Play(ghost data0: map<nat, AgentData>, started: StepReport, mover: nat, row: int, col: int) returns (r: Result<()>)
      requires Valid() && mover == ActiveAgent() && mover in data0 && !done
      requires base.agentsData == WithReport(data0, mover, started)
      requires 0 <= row < 3 && 0 <= col < 3
      modifies this, base
      ensures Valid() && base.instances == old(base.instances)
      ensures old(Marked(board)) ==> Marked(board)
      ensures board == Set(old(board), row, col, MarkOf(old(activeIndex)))
      ensures Conclude(board, MarkOf(old(activeIndex)), mover, base.agentOrder[(old(activeIndex) + 1) % 2], base.agentOrder,
                        data0, started.(resultingState := Flat(board)), old(base.cumulative)) ==
                        Conclusion(base.agentsData, base.cumulative, activeIndex == 1 - old(activeIndex), done, r.Ok?)
    {
      var mark := MarkOf(activeIndex);
      board := Set(board, row, col, mark);
      var next := Observe();
      var moved := started.(resultingState := next);
      base.agentsData := WithReport(base.agentsData, mover, moved);
      ReportRewrite(data0, mover, started, moved);
      r := Settle(data0, moved, mover, mark);
    }

    /** The end of `step`: the win scan, the draw scan, or the turn passing. */
    method Settle(ghost data0: map<nat, AgentData>, moved: StepReport, mover: nat, mark: real) returns (r: Result<()>)
      requires Valid() && mover == ActiveAgent() && mover in data0 && !done && mark == MarkOf(activeIndex)
      requires base.agentsData == WithReport(data0, mover, moved)
      modifies this, base
      ensures Valid() && board == old(board) && base.instances == old(base.instances)
      ensures Conclude(board, mark, mover, base.agentOrder[(old(activeIndex) + 1) % 2], base.agentOrder,
                        data0, moved, old(base.cumulative)) ==
                        Conclusion(base.agentsData, base.cumulative, activeIndex == 1 - old(activeIndex), done, r.Ok?)
    {
      var win := CheckWin(board, mark);
      if win {
        r := ConcludeWin(data0, moved, mover);
        return;
      }
      var draw := IsDraw(board);
      if draw {
        r := ConcludeDraw(data0, moved, mover);
        return;
      }
      var running := moved.(reward := 0.0, status := Running);
      base.agentsData := WithReport(base.agentsData, mover, running);
      ReportRewrite(data0, mover, moved, running);
      activeIndex := (activeIndex + 1) % 2;
      r := Ok(());
    }

    /** The win branch: the mover gains 1, the other agent loses 1, both Terminated. */
    method ConcludeWin(ghost data0: map<nat, AgentData>, moved: StepReport, mover: nat) returns (r: Result<()>)
      requires Valid() && mover == ActiveAgent() && mover in data0
      requires base.agentsData == WithReport(data0, mover, moved)
      modifies this, base
      ensures Valid() && board == old(board) && activeIndex == old(activeIndex) && done
      ensures base.instances == old(base.instances)
      ensures var won := WithReport(data0, mover, moved.(reward := 1.0, status := Terminated));
        var credited := Credited(old(base.cumulative), mover, 1.0);
        var other := base.agentOrder[(activeIndex + 1) % 2];
        if other in data0 then
          r.Ok? && base.agentsData == WithReport(won, other, won[other].report.(reward := -1.0, status := Terminated)) &&
          base.cumulative == Credited(credited, other, -1.0)
        else
          r.Err? && base.agentsData == won && base.cumulative == credited
    {
      done := true;
      var won := moved.(reward := 1.0, status := Terminated);
      base.agentsData := WithReport(base.agentsData, mover, won);
      ReportRewrite(data0, mover, moved, won);
      base.cumulative := Credited(base.cumulative, mover, 1.0);
      var other := base.agentOrder[(activeIndex + 1) % 2];
      if other !in base.agentsData {
        return Err("unordered_map::at");
      }
      base.agentsData := WithReport(base.agentsData, other, base.agentsData[other].report.(reward := -1.0, status := Terminated));
      base.cumulative := Credited(base.cumulative, other, -1.0);
      r := Ok(());
    }

    /** The draw branch: the loop over the turn order, reward 0 and Terminated for each. */
    method ConcludeDraw(ghost data0: map<nat, AgentData>, moved: StepReport, mover: nat) returns (r: Result<()>)
      requires Valid() && mover in data0
      requires base.agentsData == WithReport(data0, mover, moved)
      modifies this, base
      ensures Valid() && board == old(board) && activeIndex == old(activeIndex) && done
      ensures base.instances == old(base.instances) && base.cumulative == old(base.cumulative)
      ensures base.agentsData == MarkDrawn(WithReport(data0, mover, moved), base.agentOrder)
      ensures r.Ok? <==> AllIn(data0, base.agentOrder)
    {
      done := true;
      var data, ok := DrawLoop(base.agentsData, base.agentOrder);
      base.agentsData := data;
      r := if ok then Ok(()) else Err("unordered_map::at");
    }
  }
}
