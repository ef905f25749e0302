/**
 * The Tic-Tac-Toe board and turn engine (TicTacToeGame.cs).
 *
 * The board is a dictionary from cell number 1..9 to the text shown in the
 * cell. A cell is free while its text is all digits: it starts as its own
 * number and is overwritten with the mover's symbol.
 */
module Game {
  import opened Wrappers
  import opened Text

  type Board = map<int, string>

  const Cells: set<int> := {1, 2, 3, 4, 5, 6, 7, 8, 9}

  /** The winning combinations in the order they are tried: rows, columns, diagonals. */
  const WinCombinations: seq<seq<int>> :=
    [[1, 2, 3], [4, 5, 6], [7, 8, 9],
     [1, 4, 7], [2, 5, 8], [3, 6, 9],
     [1, 5, 9], [3, 5, 7]]

  /** `Environment.NewLine` as the board text uses it; nothing here depends on its characters. */
  const LineBreak: string := "\r\n"

  /** The `(status, result, opponentResult)` part of MakeMove's result; `null` is None. */
  datatype Status = Status(status: string, result: Option<string>, opponentResult: Option<string>)

  const Continue: Status := Status("continue", None, None)
  const Won: Status := Status("end", Some("win"), Some("loss"))
  const Drawn: Status := Status("end", Some("draw"), Some("draw"))

  /** The value of a TicTacToeGame object: its board and its `Turn`. */
  datatype GameState = GameState(board: Board, turn: string)

  /** What one call of MakeMove returns, and the game it leaves behind. */
  datatype MoveStep = MoveStep(valid: bool, status: Status, after: GameState)

  /** Every board the game builds has exactly the cells 1..9. */
  predicate WellFormed(b: Board) {
    b.Keys == Cells
  }

  predicate IsFree(b: Board, cell: int)
    requires cell in b
  {
    AllDigits(b[cell])
  }

  /** The cells that are still free. */
  function FreeCells(b: Board): set<int>
    requires WellFormed(b)
  {
    set c | c in Cells && IsFree(b, c)
  }

  /** `combination.All(cell => board[cell] == symbol)`. */
  predicate Owns(b: Board, combination: seq<int>, symbol: string) {
    forall c :: c in combination ==> c in b && b[c] == symbol
  }

  /** What CheckWin decides: some winning combination holds `symbol` in all three cells. */
  predicate HasWin(b: Board, symbol: string) {
    exists k :: 0 <= k < |WinCombinations| && Owns(b, WinCombinations[k], symbol)
  }

  /** CheckDraw: no cell text is all digits. */
  predicate IsFull(b: Board) {
    forall v :: v in b.Values ==> !AllDigits(v)
  }

  /** `Turn == "X" ? "O" : "X"`: always a real symbol, and the other one when the turn already is one. */
  function Toggle(turn: string): (next: string)
    ensures next == "X" || next == "O"
    ensures (turn == "X" || turn == "O") ==> next != turn
  {
    if turn == "X" then "O" else "X"
  }

  /** The game a new TicTacToeGame holds: each cell shows its own number, X to move. */
  function Initial(): (g: GameState)
    ensures WellFormed(g.board) && g.turn == "X"
  {
    GameState(map i | i in Cells :: NatToString(i), "X")
  }

  /**
   * MakeMove on a game value. The move is refused when the cell is out of
   * range or not free; otherwise the cell takes `symbol`, and the result is a
   * win, else a draw, else the turn passes. Whose turn it is is not checked.
   */
  function Play(g: GameState, cell: int, symbol: string): (r: MoveStep)
    requires WellFormed(g.board)
    ensures WellFormed(r.after.board)
    ensures r.valid <==> 1 <= cell <= 9 && IsFree(g.board, cell)
    ensures !r.valid ==> r.status == Continue && r.after == g
    ensures r.valid ==> r.after.board[cell] == symbol
    ensures forall c :: c in Cells && c != cell ==> r.after.board[c] == g.board[c]
    ensures r.valid ==> (r.status == Won <==> HasWin(r.after.board, symbol))
    ensures r.valid ==> (r.status == Drawn <==> !HasWin(r.after.board, symbol) && IsFull(r.after.board))
    ensures r.status == Won || r.status == Drawn || r.status == Continue
    ensures r.after.turn == if r.valid && r.status == Continue then Toggle(g.turn) else g.turn
  {
    if cell < 1 || cell > 9 || !AllDigits(g.board[cell]) then
      MoveStep(false, Continue, g)
    else
      var b := g.board[cell := symbol];
      if HasWin(b, symbol) then MoveStep(true, Won, GameState(b, g.turn))
      else if IsFull(b) then MoveStep(true, Drawn, GameState(b, g.turn))
      else MoveStep(true, Continue, GameState(b, Toggle(g.turn)))
  }

  /** What follows cell `i` in the board text: "|" inside a row, a line break between rows. */
  function Separator(i: int): string {
    if i % 3 != 0 then "|" else if i != 9 then LineBreak else ""
  }

  /** The board text after the first `n` cells have been appended. */
  function RenderPrefix(b: Board, n: nat): string
    requires WellFormed(b) && n <= 9
  {
    if n == 0 then "" else RenderPrefix(b, n - 1) + b[n] + Separator(n)
  }

  /** GetBoardRepresentation's text for a board. */
  function Render(b: Board): string
    requires WellFormed(b)
  {
    RenderPrefix(b, 9)
  }

  /** The board text is three rows of three cells, joined by "|" within a row and by line breaks between rows. */
  lemma RenderLayout(b: Board)
    requires WellFormed(b)
    ensures Render(b) ==
      b[1] + "|" + b[2] + "|" + b[3] + LineBreak +
      b[4] + "|" + b[5] + "|" + b[6] + LineBreak +
      b[7] + "|" + b[8] + "|" + b[9]
  {
    assert RenderPrefix(b, 1) == b[1] + "|";
    assert RenderPrefix(b, 2) == b[1] + "|" + b[2] + "|";
    assert RenderPrefix(b, 3) == b[1] + "|" + b[2] + "|" + b[3] + LineBreak;
    assert RenderPrefix(b, 4) == RenderPrefix(b, 3) + b[4] + "|";
    assert RenderPrefix(b, 5) == RenderPrefix(b, 3) + b[4] + "|" + b[5] + "|";
    assert RenderPrefix(b, 6) == RenderPrefix(b, 3) + b[4] + "|" + b[5] + "|" + b[6] + LineBreak;
    assert RenderPrefix(b, 7) == RenderPrefix(b, 6) + b[7] + "|";
    assert RenderPrefix(b, 8) == RenderPrefix(b, 6) + b[7] + "|" + b[8] + "|";
  }

  /** A new game: every cell free and showing its number, no win for any symbol, not full. */
  lemma InitialGame(symbol: string)
    ensures WellFormed(Initial().board) && Initial().turn == "X"
    ensures FreeCells(Initial().board) == Cells
    ensures forall i :: i in Cells ==> Initial().board[i] == NatToString(i)
    ensures !HasWin(Initial().board, symbol) && !IsFull(Initial().board)
  {
    var b := Initial().board;
    assert b[1] in b.Values;
    InitialCellTexts();
    forall k | 0 <= k < |WinCombinations|
      ensures !Owns(b, WinCombinations[k], symbol)
    {
      var w := WinCombinations[k];
      assert w[0] in w && w[1] in w && b[w[0]] != b[w[1]];
    }
  }

  /** The text of a new game's board. */
  const InitialBoardText: string := "1|2|3" + LineBreak + "4|5|6" + LineBreak + "7|8|9"

  /** The text a new game is broadcast as: the cell numbers in three rows. */
  lemma InitialRender(b: Board)
    requires b == Initial().board
    ensures WellFormed(b)
    ensures Render(b) == InitialBoardText
  {
    InitialCellTexts();
    RenderNumbered(b);
  }

  lemma RenderNumbered(b: Board)
    requires WellFormed(b)
    requires b[1] == "1" && b[2] == "2" && b[3] == "3"
    requires b[4] == "4" && b[5] == "5" && b[6] == "6"
    requires b[7] == "7" && b[8] == "8" && b[9] == "9"
    ensures Render(b) == InitialBoardText
  {
    RenderLayout(b);
    assert "1" + "|" + "2" + "|" + "3" == "1|2|3";
    assert "4" + "|" + "5" + "|" + "6" == "4|5|6";
    assert "7" + "|" + "8" + "|" + "9" == "7|8|9";
  }

  /** The texts of the nine cells of a new game. */
  lemma InitialCellTexts()
    ensures var b := Initial().board;
      b[1] == "1" && b[2] == "2" && b[3] == "3" &&
      b[4] == "4" && b[5] == "5" && b[6] == "6" &&
      b[7] == "7" && b[8] == "8" && b[9] == "9"
  {
    assert NatToString(1) == "1" && NatToString(2) == "2" && NatToString(3) == "3";
    assert NatToString(4) == "4" && NatToString(5) == "5" && NatToString(6) == "6";
    assert NatToString(7) == "7" && NatToString(8) == "8" && NatToString(9) == "9";
  }

  /** CheckDraw holds exactly when no cell of the board is free any more. */
  lemma FullIffNoFreeCell(b: Board)
    requires WellFormed(b)
    ensures IsFull(b) <==> FreeCells(b) == {}
  {
    if !IsFull(b) {
      var v :| v in b.Values && AllDigits(v);
      var c :| c in b && b[c] == v;
      assert c in FreeCells(b);
    }
    if FreeCells(b) != {} {
      var c :| c in FreeCells(b);
      assert b[c] in b.Values;
    }
  }

  /** The cell of row `r` and column `c` (both 0..2) in row-major numbering. */
  function CellAt(r: int, c: int): int {
    3 * r + c + 1
  }

  /**
   * The eight combinations are exactly the three rows, the three columns and
   * the two diagonals of the 3x3 grid.
   */
  lemma HasWinGeometric(b: Board, symbol: string)
    ensures HasWin(b, symbol) <==>
      (exists r :: 0 <= r < 3 && Owns(b, [CellAt(r, 0), CellAt(r, 1), CellAt(r, 2)], symbol)) ||
      (exists c :: 0 <= c < 3 && Owns(b, [CellAt(0, c), CellAt(1, c), CellAt(2, c)], symbol)) ||
      Owns(b, [CellAt(0, 0), CellAt(1, 1), CellAt(2, 2)], symbol) ||
      Owns(b, [CellAt(0, 2), CellAt(1, 1), CellAt(2, 0)], symbol)
  {
    if HasWin(b, symbol) {
      var k :| 0 <= k < |WinCombinations| && Owns(b, WinCombinations[k], symbol);
      if k < 3 {
        assert WinCombinations[k] == [CellAt(k, 0), CellAt(k, 1), CellAt(k, 2)];
      } else if k < 6 {
        assert WinCombinations[k] == [CellAt(0, k - 3), CellAt(1, k - 3), CellAt(2, k - 3)];
      }
    }
    if exists r :: 0 <= r < 3 && Owns(b, [CellAt(r, 0), CellAt(r, 1), CellAt(r, 2)], symbol) {
      var r :| 0 <= r < 3 && Owns(b, [CellAt(r, 0), CellAt(r, 1), CellAt(r, 2)], symbol);
      assert WinCombinations[r] == [CellAt(r, 0), CellAt(r, 1), CellAt(r, 2)];
    }
    if exists c :: 0 <= c < 3 && Owns(b, [CellAt(0, c), CellAt(1, c), CellAt(2, c)], symbol) {
      var c :| 0 <= c < 3 && Owns(b, [CellAt(0, c), CellAt(1, c), CellAt(2, c)], symbol);
      assert WinCombinations[3 + c] == [CellAt(0, c), CellAt(1, c), CellAt(2, c)];
    }
    if Owns(b, [CellAt(0, 0), CellAt(1, 1), CellAt(2, 2)], symbol) {
      assert WinCombinations[6] == [CellAt(0, 0), CellAt(1, 1), CellAt(2, 2)];
    }
    if Owns(b, [CellAt(0, 2), CellAt(1, 1), CellAt(2, 0)], symbol) {
      assert WinCombinations[7] == [CellAt(0, 2), CellAt(1, 1), CellAt(2, 0)];
    }
  }

  /** Moving into the last free cell of a combination whose other two cells hold `symbol` wins. */
  lemma CompletingCombinationWins(g: GameState, k: int, cell: int, symbol: string)
    requires WellFormed(g.board) && 0 <= k < |WinCombinations|
    requires cell in WinCombinations[k] && IsFree(g.board, cell)
    requires forall c :: c in WinCombinations[k] && c != cell ==> g.board[c] == symbol
    ensures Play(g, cell, symbol).valid && Play(g, cell, symbol).status == Won
    ensures Play(g, cell, symbol).after.turn == g.turn
  {
    var r := Play(g, cell, symbol);
    assert Owns(r.after.board, WinCombinations[k], symbol);
  }

  /**
   * A move with a real symbol (one with a non-digit character) claims its
   * cell for good: the free cells lose exactly that cell, and a claimed
   * cell is never free again.
   */
  lemma ClaimShrinksFreeCells(g: GameState, cell: int, symbol: string)
    requires WellFormed(g.board) && !AllDigits(symbol)
    ensures var r := Play(g, cell, symbol);
      FreeCells(r.after.board) == if r.valid then FreeCells(g.board) - {cell} else FreeCells(g.board)
    ensures var r := Play(g, cell, symbol);
      r.valid ==> |FreeCells(r.after.board)| == |FreeCells(g.board)| - 1
  {
    var r := Play(g, cell, symbol);
    if r.valid {
      assert FreeCells(r.after.board) == FreeCells(g.board) - {cell};
      assert cell in FreeCells(g.board);
    }
  }

  /**
   * A symbol made only of digits, such as the "" every player holds before
   * the game starts, leaves the cell it is written to free.
   */
  lemma DigitSymbolLeavesCellFree(g: GameState, cell: int, symbol: string)
    requires WellFormed(g.board) && AllDigits(symbol)
    requires 1 <= cell <= 9 && IsFree(g.board, cell)
    ensures Play(g, cell, symbol).valid
    ensures IsFree(Play(g, cell, symbol).after.board, cell)
    ensures Play(Play(g, cell, symbol).after, cell, symbol).valid
  {
  }

  /**
   * A finished game still takes moves: after a winning move, any free cell
   * is accepted for any symbol, since MakeMove never looks at the result.
   */
  lemma MoveAfterWin(g: GameState, cell: int, symbol: string, next: int, other: string)
    requires WellFormed(g.board) && Play(g, cell, symbol).status == Won
    requires 1 <= next <= 9 && IsFree(Play(g, cell, symbol).after.board, next)
    ensures Play(Play(g, cell, symbol).after, next, other).valid
  {
  }

  /** A drawn game takes no further move: no cell is left free. */
  lemma NoMoveAfterDraw(g: GameState, cell: int, symbol: string, next: int, other: string)
    requires WellFormed(g.board) && Play(g, cell, symbol).status == Drawn
    ensures !Play(Play(g, cell, symbol).after, next, other).valid
  {
    var b := Play(g, cell, symbol).after.board;
    if 1 <= next <= 9 {
      assert b[next] in b.Values;
    }
  }

  /** X opening in the centre of a new game: accepted, no result yet, O to move. */
  lemma CentreOpening()
    ensures Play(Initial(), 5, "X") == MoveStep(true, Continue, GameState(Initial().board[5 := "X"], "O"))
  {
    var g := Initial();
    assert "X"[0] == 'X';
    InitialGame("X");
    InitialCellTexts();
    var b := g.board[5 := "X"];
    assert !HasWin(b, "X") by {
      forall k | 0 <= k < |WinCombinations|
        ensures !Owns(b, WinCombinations[k], "X")
      {
        var c := if k == 1 || k == 4 || k == 6 || k == 7 then WinCombinations[k][0] else WinCombinations[k][1];
        assert c in WinCombinations[k] && c != 5;
        assert b[c] == g.board[c];
        assert "X"[0] == 'X';
      }
    }
    assert !IsFull(b) by {
      assert b[1] == "1";
      assert b[1] in b.Values;
    }
  }

  class TicTacToeGame {
    var board: Board
    var Turn: string

    ghost predicate Valid()
      reads this
    {
      WellFormed(board) && (Turn == "X" || Turn == "O")
    }

    function State(): GameState
      reads this
    {
      GameState(board, Turn)
    }

    /** Cell i holds the text of i, and X moves first. */
    constructor ()
      ensures Valid() && State() == Initial()
      ensures forall i :: i in Cells ==> board[i] == NatToString(i)
      ensures Turn == "X"
    {
      var b: Board := map[];
      var i := 1;
      while i <= 9
        invariant 1 <= i <= 10
        invariant forall c :: c in b <==> 1 <= c < i
        invariant forall c :: c in b ==> b[c] == NatToString(c)
      {
        b := b[i := NatToString(i)];
        i := i + 1;
      }
      board := b;
      Turn := "X";
    }

    method MakeMove(cell: int, symbol: string) returns (valid: bool, status: Status)
      requires Valid()
      modifies this
      ensures Valid()
      ensures MoveStep(valid, status, State()) == Play(old(State()), cell, symbol)
    {
      if cell < 1 || cell > 9 || !AllDigits(board[cell]) {
        return false, Continue;
      }
      board := board[cell := symbol];
      var won := CheckWin(symbol);
      if won {
        return true, Won;
      }
      if IsFull(board) {
        return true, Drawn;
      }
      Turn := if Turn == "X" then "O" else "X";
      return true, Continue;
    }

    /** Tries the combinations in order and stops at the first one `symbol` holds. */
    method CheckWin(symbol: string) returns (won: bool)
      ensures won == HasWin(board, symbol)
    {
      var k := 0;
      while k < |WinCombinations|
        invariant 0 <= k <= |WinCombinations|
        invariant forall j :: 0 <= j < k ==> !Owns(board, WinCombinations[j], symbol)
      {
        if Owns(board, WinCombinations[k], symbol) {
          return true;
        }
        k := k + 1;
      }
      return false;
    }

    method GetBoardRepresentation() returns (repr: string)
      requires Valid()
      ensures repr == Render(board)
    {
      repr := "";
      var i := 1;
      while i <= 9
        invariant 1 <= i <= 10
        invariant repr == RenderPrefix(board, i - 1)
      {
        repr := repr + board[i];
        if i % 3 != 0 {
          repr := repr + "|";
        } else if i != 9 {
          repr := repr + LineBreak;
        }
        i := i + 1;
      }
    }
  }
}
