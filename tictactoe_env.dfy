// The single-board TicTacToe of include/talawa-ai/env/TicTacToeEnvironment.hpp:
// a nine-cell board of player ids (1 for X, -1 for O, 0 for empty), the
// player to move, and the winner. An illegal move ends the game.
module TicTacToeEnvironments {
  import opened Common
  import opened MatrixSpec
  import opened GameStates
  import QTableText

  const Player1: int := 1
  const Player2: int := -1

  /** `GameOutcome`, from one player's point of view. */
  datatype GameOutcome = Win | Loss | Draw | Ongoing

  /** `TicTacToeState`; `winner` is 0 while nobody has won. */
  datatype TicTacToeState = TicTacToeState(board: seq<int>, currentPlayer: int, done: bool, winner: int)

  /** The state a new game starts from. */
  const Initial: TicTacToeState := TicTacToeState(seq(9, _ => 0), Player1, false, 0)

  /** `equals`: board and player to move; done and winner are not compared. */
  predicate SameState(a: TicTacToeState, b: TicTacToeState)
  {
    a.board == b.board && a.currentPlayer == b.currentPlayer
  }

  /** The board seen from `player`: '1' for its cells, '0' for empty ones, '2' for the opponent's. */
  function Perspective(board: seq<int>, player: int): (s: string)
    ensures |s| == |board|
    ensures forall i :: 0 <= i < |board| ==> QTableText.IsDigit(s[i])
    ensures forall i :: 0 <= i < |board| ==>
      s[i] == (if board[i] == player then '1' else if board[i] == 0 then '0' else '2')
  {
    seq(|board|, i requires 0 <= i < |board| => if board[i] == player then '1' else if board[i] == 0 then '0' else '2')
  }

  /**
   * `hash`: the perspective string read as a decimal number by `stoull`,
   * falling back to accumulating its digits when `stoull` fails.
   */
  function Hash(s: TicTacToeState): nat
  {
    var digits := Perspective(s.board, s.currentPlayer);
    match QTableText.ParseHash(digits)
    case Ok(v) => v
    case Err(_) => QTableText.DigitsValue(digits)
  }

  function Pow10(n: nat): (p: nat)
    ensures p > 0
  {
    if n == 0 then 1 else 10 * Pow10(n - 1)
  }

  /** A run of n digits is worth less than 10^n. */
  lemma {:induction false} DigitsBelow(s: string)
    requires forall i :: 0 <= i < |s| ==> QTableText.IsDigit(s[i])
    ensures QTableText.DigitsValue(s) < Pow10(|s|)
  {
    if |s| > 0 {
      DigitsBelow(s[..|s| - 1]);
    }
  }

  /** A number written as 10a + d with a digit d determines a and d. */
  lemma LastDigit(a: nat, d: nat, b: nat, e: nat)
    requires d < 10 && e < 10 && 10 * a + d == 10 * b + e
    ensures a == b && d == e
  {
    DivUnique(10 * a + d, 10, a, d);
    DivUnique(10 * b + e, 10, b, e);
  }

  /** Two digit runs of one length with the same value are the same run. */
  lemma {:induction false} DigitsInjective(s: string, t: string)
    requires |s| == |t|
    requires forall i :: 0 <= i < |s| ==> QTableText.IsDigit(s[i])
    requires forall i :: 0 <= i < |t| ==> QTableText.IsDigit(t[i])
    requires QTableText.DigitsValue(s) == QTableText.DigitsValue(t)
    ensures s == t
  {
    if |s| > 0 {
      var n := |s| - 1;
      var ds := QTableText.DigitValue(s[n]);
      var dt := QTableText.DigitValue(t[n]);
      var vs := QTableText.DigitsValue(s[..n]);
      var vt := QTableText.DigitsValue(t[..n]);
      assert 10 * vs + ds == 10 * vt + dt;
      LastDigit(vs, ds, vt, dt);
      DigitsInjective(s[..n], t[..n]);
      assert s[n] == t[n];
      assert s == s[..n] + [s[n]] && t == t[..n] + [t[n]];
    }
  }

  /** `stoull` reads a run of digits as its value whenever it is in range. */
  lemma ParseDigits(s: string)
    requires |s| > 0 && forall i :: 0 <= i < |s| ==> QTableText.IsDigit(s[i])
    requires QTableText.DigitsValue(s) < QTableText.HashBound
    ensures QTableText.ParseHash(s) == Ok(QTableText.DigitsValue(s))
  {
    assert QTableText.IsDigit(s[0]);
    DigitRunAll(s);
    ParseUnsigned(s);
  }

  /** A run with no leading space or sign that is digits to its end is read whole. */
  lemma ParseUnsigned(s: string)
    requires |s| > 0 && QTableText.IsDigit(s[0]) && QTableText.DigitRun(s) == |s|
    requires QTableText.DigitsValue(s) < QTableText.HashBound
    ensures QTableText.ParseHash(s) == Ok(QTableText.DigitsValue(s))
  {
    assert QTableText.SpaceRun(s) == 0;
    assert s[0..] == s && s[..|s|] == s;
  }

  /** A run made only of digits is read to its end. */
  lemma {:induction false} DigitRunAll(s: string)
    requires forall i :: 0 <= i < |s| ==> QTableText.IsDigit(s[i])
    ensures QTableText.DigitRun(s) == |s|
  {
    if |s| > 0 {
      DigitRunAll(s[1..]);
    }
  }

  /**
   * On a nine-cell board the hash is the nine-digit perspective number, so
   * it is below 10^9, and two states hash alike exactly when they look the
   * same to the player to move.
   */
  lemma HashIsPerspective(a: TicTacToeState, b: TicTacToeState)
    requires |a.board| == 9 && |b.board| == 9
    ensures Hash(a) == QTableText.DigitsValue(Perspective(a.board, a.currentPlayer))
    ensures Hash(a) < 1000000000
    ensures Hash(a) == Hash(b) <==> Perspective(a.board, a.currentPlayer) == Perspective(b.board, b.currentPlayer)
  {
    var pa := Perspective(a.board, a.currentPlayer);
    var pb := Perspective(b.board, b.currentPlayer);
    DigitsBelow(pa);
    DigitsBelow(pb);
    assert Pow10(9) == 1000000000;
    ParseDigits(pa);
    ParseDigits(pb);
    if Hash(a) == Hash(b) {
      DigitsInjective(pa, pb);
    }
  }

  /** The eight lines of the board: three rows, three columns, two diagonals. */
  const Lines: seq<seq<nat>> := [[0, 1, 2], [3, 4, 5], [6, 7, 8], [0, 3, 6], [1, 4, 7], [2, 5, 8], [0, 4, 8], [2, 4, 6]]

  /** Cells a, b and c all hold `player`. */
  predicate Owns(board: seq<int>, player: int, a: nat, b: nat, c: nat)
    requires a < |board| && b < |board| && c < |board|
  {
    board[a] == player && board[b] == player && board[c] == player
  }

  /** Some row, column or diagonal is entirely `player`'s. */
  predicate HasLine(board: seq<int>, player: int)
    requires |board| == 9
  {
    Owns(board, player, 0, 1, 2) || Owns(board, player, 3, 4, 5) || Owns(board, player, 6, 7, 8) ||
    Owns(board, player, 0, 3, 6) || Owns(board, player, 1, 4, 7) || Owns(board, player, 2, 5, 8) ||
    Owns(board, player, 0, 4, 8) || Owns(board, player, 2, 4, 6)
  }

  /** `check_win`: scans the line table and stops at the first completed line. */
  method CheckWin(board: seq<int>, player: int) returns (win: bool)
    requires |board| == 9
    ensures win <==> HasLine(board, player)
  {
    var l := 0;
    while l < |Lines|
      invariant 0 <= l <= |Lines|
      invariant forall j :: 0 <= j < l ==> !Owns(board, player, Lines[j][0], Lines[j][1], Lines[j][2])
    {
      var line := Lines[l];
      if board[line[0]] == player && board[line[1]] == player && board[line[2]] == player {
        return true;
      }
      l := l + 1;
    }
    assert !Owns(board, player, Lines[0][0], Lines[0][1], Lines[0][2]);
    assert !Owns(board, player, Lines[1][0], Lines[1][1], Lines[1][2]);
    assert !Owns(board, player, Lines[2][0], Lines[2][1], Lines[2][2]);
    assert !Owns(board, player, Lines[3][0], Lines[3][1], Lines[3][2]);
    assert !Owns(board, player, Lines[4][0], Lines[4][1], Lines[4][2]);
    assert !Owns(board, player, Lines[5][0], Lines[5][1], Lines[5][2]);
    assert !Owns(board, player, Lines[6][0], Lines[6][1], Lines[6][2]);
    assert !Owns(board, player, Lines[7][0], Lines[7][1], Lines[7][2]);
    return false;
  }

  /** `is_board_full`: no cell is empty. */
  method IsBoardFull(board: seq<int>) returns (full: bool)
    requires |board| == 9
    ensures full <==> forall i :: 0 <= i < 9 ==> board[i] != 0
  {
    var i := 0;
    while i < 9
      invariant 0 <= i <= 9 && forall j :: 0 <= j < i ==> board[j] != 0
    {
      if board[i] == 0 {
        return false;
      }
      i := i + 1;
    }
    return true;
  }

  /** `outcome_for`. */
  function OutcomeFor(s: TicTacToeState, player: int): (o: GameOutcome)
    ensures o == Ongoing <==> !s.done
    ensures o == Draw <==> s.done && s.winner == 0
    ensures o == Win <==> s.done && s.winner != 0 && s.winner == player
  {
    if !s.done then Ongoing
    else if s.winner == 0 then Draw
    else if s.winner == player then Win
    else Loss
  }

  /** A game with a winner is a win for the winner and a loss for the other player. */
  lemma OutcomesOfAWin(s: TicTacToeState)
    requires s.done && s.winner == Player1
    ensures OutcomeFor(s, Player1) == Win && OutcomeFor(s, Player2) == Loss
  {}

  class TicTacToeEnvironment {
    var state: TicTacToeState

    /** The board has nine cells. */
    ghost predicate Valid()
      reads this
    {
      |state.board| == 9
    }

    constructor ()
      ensures state == Initial && Valid()
    {
      state := Initial;
    }

    /** `reset`: empty board, PLAYER_1 to move, not done, no winner. */
    method Reset()
      modifies this
      ensures state == Initial && Valid()
    {
      state := Initial;
    }

    /** `observe`: the nine cells, then the player to move. */
    function Observe(): (obs: Mat)
      requires Valid()
      reads this
      ensures Wf(obs) && obs.rows == 1 && obs.cols == 10
      ensures forall i :: 0 <= i < 9 ==> Get(obs, 0, i) == state.board[i] as real
      ensures Get(obs, 0, 9) == state.currentPlayer as real
    {
      var b := state.board;
      var p := state.currentPlayer;
      Tabulate(1, 10, (i, j) => if 0 <= j < 9 then b[j] as real else p as real)
    }

    /** `get_legal_mask`: 1 exactly on the empty cells. */
    method LegalMask() returns (mask: Option<Mat>)
      requires Valid()
      ensures mask.Some? && Wf(mask.value) && mask.value.rows == 1 && mask.value.cols == 9
      ensures forall i :: 0 <= i < 9 ==> Get(mask.value, 0, i) == if state.board[i] == 0 then 1.0 else 0.0
    {
      var m := Zeros(1, 9);
      var i := 0;
      while i < 9
        invariant 0 <= i <= 9 && Wf(m) && m.rows == 1 && m.cols == 9
        invariant forall j :: 0 <= j < 9 ==> Get(m, 0, j) == if j < i && state.board[j] == 0 then 1.0 else 0.0
      {
        m := Set(m, 0, i, if state.board[i] == 0 then 1.0 else 0.0);
        i := i + 1;
      }
      mask := Some(m);
    }

    function Snapshot(): TicTacToeState
      reads this
    {
      state
    }

    method Restore(s: TicTacToeState)
      modifies this
      ensures Snapshot() == s
    {
      state := s;
    }

    /**
     * `step`: a move outside 0..8 or onto an occupied cell ends the game
     * with -10 and leaves the board alone. A legal move writes the mover's
     * id; a completed line makes the mover the winner (+1), a full board
     * is a draw (+0.01), and otherwise the other player is to move (-0.1).
     */
    method Step(action: Mat) returns (t: Transition<TicTacToeState>)
      requires Valid() && HasCell(action)
      modifies this
      ensures Valid()
      ensures t.state == old(state) && t.action == action && t.nextState == state && t.terminated == state.done
      ensures var cell := ActionValue(action);
        if !(0 <= cell < 9) || old(state).board[cell] != 0 then
          state == old(state).(done := true) && t.reward == -10.0
        else
          var board := old(state).board[cell := old(state).currentPlayer];
          state.board == board &&
          (HasLine(board, old(state).currentPlayer) ==>
             state == TicTacToeState(board, old(state).currentPlayer, true, old(state).currentPlayer) && t.reward == 1.0) &&
          (!HasLine(board, old(state).currentPlayer) && (forall i :: 0 <= i < 9 ==> board[i] != 0) ==>
             state == TicTacToeState(board, old(state).currentPlayer, true, old(state).winner) && t.reward == 0.01) &&
          (!HasLine(board, old(state).currentPlayer) && (exists i :: 0 <= i < 9 && board[i] == 0) ==>
             state == TicTacToeState(board, if old(state).currentPlayer == Player1 then Player2 else Player1,
                                     old(state).done, old(state).winner) &&
             t.reward == -0.1)
    {
      var prev := state;
      var cell := ActionValue(action);
      var reward := 0.0;
      if cell < 0 || cell > 8 || state.board[cell] != 0 {
        reward := -10.0;
        state := state.(done := true);
      } else {
        var mover := state.currentPlayer;
        state := state.(board := state.board[cell := mover]);
        var win := CheckWin(state.board, mover);
        if win {
          state := state.(winner := mover, done := true);
          reward := 1.0;
        } else {
          var full := IsBoardFull(state.board);
          if full {
            state := state.(done := true);
            reward := 0.01;
          } else {
            state := state.(currentPlayer := if mover == Player1 then Player2 else Player1);
            reward := -0.1;
          }
        }
      }
      t := Transition(prev, action, reward, state, state.done);
    }
  }
}
