/**
 * The text messages exchanged between server and clients. Each is written
 * whole to the stream; the first word of a server message is its command.
 */
module Wire {
  import opened Text

  // Registration handshake (server to client).
  const Accepted: string := "Connected to the server"
  const NameTaken: string := "Username already taken"

  // Sent by the server on shutdown, and by a client that leaves.
  const DisconnectToken: string := "Disconnect"

  // Move acknowledgements, turn notices and results (server to client).
  const ValidMove: string := "VALID_MOVE"
  const InvalidMove: string := "INVALID_MOVE"
  const YourTurn: string := "YOUR_TURN"
  const OpponentTurn: string := "OPPONENT_TURN"
  const WinToken: string := "WIN"
  const LossToken: string := "LOSS"
  const DrawToken: string := "DRAW"

  // Commands that carry content after the first space (server to client).
  const SymbolCommand: string := "SYMBOL"
  const BoardCommand: string := "BOARD"

  function SymbolToken(symbol: string): (t: string)
    ensures |t| == 7 + |symbol| && t[..6] == SymbolCommand && t[6] == ' ' && t[7..] == symbol
  {
    SymbolCommand + " " + symbol
  }

  function BoardToken(repr: string): (t: string)
    ensures |t| == 6 + |repr| && t[..5] == BoardCommand && t[5] == ' ' && t[6..] == repr
  {
    BoardCommand + " " + repr
  }

  // A move (client to server): "MOVE" and a cell number from the fifth character on.
  const MoveCommand: string := "MOVE"

  function MoveToken(cell: nat): (t: string)
    ensures |t| > 5 && t[..4] == MoveCommand && t[4] == ' '
    ensures t[5..] == NatToString(cell)
  {
    MoveCommand + " " + NatToString(cell)
  }
}
