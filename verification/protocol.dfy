/**
 * Client and server together: what the client writes when its move button
 * is pressed is what the server reads as a move.
 */
module Protocol {
  import opened Wrappers
  import opened Text
  import opened Wire
  import Client
  import Server
  import Game

  /**
   * Every "MOVE n" a client sends decodes, on the server, to the cell it
   * was typed as, and that cell is on the board: a move from this client can
   * only be refused because its cell is taken.
   */
  lemma MoveRoundTrip(c: Client.ClientState, text: string)
    requires Client.SendMoveSpec(c, text).sent != c.sent
    ensures Client.MoveCell(text).Some?
    ensures var sent := Client.SendMoveSpec(c, text).sent;
      && |sent| == |c.sent| + 1
      && Server.DecodeMove(sent[|c.sent|]) == Server.MoveTo(Client.MoveCell(text).value)
      && 1 <= Client.MoveCell(text).value <= 9
  {
    var cell := Client.MoveCell(text).value;
    Server.DecodeMoveToken(cell);
  }

  /**
   * The first ready player, connected, reads what StartGame sends it
   * (SYMBOL X, the board, YOUR_TURN): it holds X and its move button is on.
   */
  lemma FirstPlayerStarts(c: Client.ClientState)
    requires c.connected
    ensures var after := Client.ConsumeSpec(Client.ConsumeSpec(Client.ConsumeSpec(c,
              SymbolToken("X")), BoardToken(Game.InitialBoardText)), YourTurn);
      after == c.(symbol := Some("X"), moveEnabled := true)
  {
    Client.SymbolMessage(c, "X");
    var c1 := c.(symbol := Some("X"));
    Client.BoardMessage(c1, Game.InitialBoardText);
    Client.YourTurnMessage(c1);
  }

  /**
   * The second ready player reads SYMBOL O, the board and OPPONENT_TURN: it
   * holds O and its move button is off.
   */
  lemma SecondPlayerWaits(c: Client.ClientState)
    ensures var after := Client.ConsumeSpec(Client.ConsumeSpec(Client.ConsumeSpec(c,
              SymbolToken("O")), BoardToken(Game.InitialBoardText)), OpponentTurn);
      after == c.(symbol := Some("O"), moveEnabled := false)
  {
    Client.SymbolMessage(c, "O");
    var c1 := c.(symbol := Some("O"));
    Client.BoardMessage(c1, Game.InitialBoardText);
    Client.WaitMessage(c1, OpponentTurn);
  }
}
