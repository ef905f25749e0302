/**
 * The protocol side of the client (ClientForm.cs without its window): the
 * symbol it was given, whether it is connected, whether its move button is
 * enabled, and — in this model — the messages it has written to the server.
 */
module Client {
  import opened Wrappers
  import opened Text
  import opened Wire

  /** `message.Split(new[] { ' ' }, 2)`: the text before the first space, and the rest ("" when there is none). */
  function SplitMessage(message: string): (r: (string, string))
    ensures ' ' !in r.0
    ensures ' ' in message ==> message == r.0 + " " + r.1
    ensures ' ' !in message ==> r == (message, "")
  {
    if message == [] then ("", "")
    else if message[0] == ' ' then ("", message[1..])
    else
      var rest := SplitMessage(message[1..]);
      assert message == [message[0]] + message[1..];
      ([message[0]] + rest.0, rest.1)
  }

  /** A command without a space, a space and any content split back into that command and that content. */
  lemma {:induction false} SplitJoin(command: string, content: string)
    requires ' ' !in command
    ensures SplitMessage(command + " " + content) == (command, content)
  {
    var message := command + " " + content;
    if command == [] {
      assert message[0] == ' ' && message[1..] == content;
    } else {
      assert message[0] == command[0] != ' ';
      assert message[1..] == command[1..] + " " + content;
      assert ' ' !in command[1..];
      SplitJoin(command[1..], content);
      assert command == [command[0]] + command[1..];
    }
  }

  /** ValidateInputs: every field non-blank and the port an `int`. */
  function ValidateInputs(ip: string, port: string, username: string): (ok: bool)
    ensures ok <==> !IsNullOrWhiteSpace(ip) && !IsNullOrWhiteSpace(username) && ParseInt(port).Some?
  {
    if IsNullOrWhiteSpace(ip) || IsNullOrWhiteSpace(port) || IsNullOrWhiteSpace(username) then false
    else ParseInt(port).Some?
  }

  /** A port that parses holds a digit, so it is never blank: the blank check on the port is subsumed. */
  lemma ParsedPortNotBlank(port: string)
    requires ParseInt(port).Some?
    ensures !IsNullOrWhiteSpace(port)
  {
    var i :| 0 <= i < |port| && IsDigit(port[i]);
    assert !IsWhiteSpace(port[i]);
  }

  /** The cell SendMove reads from the move box: an `int` from 1 to 9, or None. */
  function MoveCell(text: string): (cell: Option<nat>)
    ensures cell.Some? <==> ParseInt(text).Some? && 1 <= ParseInt(text).value <= 9
    ensures cell.Some? ==> cell.value == ParseInt(text).value
  {
    match ParseInt(text)
    case Some(n) => if 1 <= n <= 9 then Some(n) else None
    case None => None
  }

  /** The value of a client: its symbol (None while null), the two flags, and what it has written. */
  datatype ClientState = ClientState(symbol: Option<string>, connected: bool, moveEnabled: bool, sent: seq<string>)

  const Fresh: ClientState := ClientState(None, false, false, [])

  /** Disconnect: "Disconnect" goes out only when connected; the client is not connected afterwards. */
  function DisconnectSpec(c: ClientState): (r: ClientState)
    ensures !r.connected && r.symbol == c.symbol && r.moveEnabled == c.moveEnabled
    ensures c.connected ==> r.sent == c.sent + [DisconnectToken]
    ensures !c.connected ==> r == c
  {
    c.(connected := false, sent := if c.connected then c.sent + [DisconnectToken] else c.sent)
  }

  /** A second Disconnect writes nothing and changes nothing. */
  lemma DisconnectTwice(c: ClientState)
    ensures DisconnectSpec(DisconnectSpec(c)) == DisconnectSpec(c)
  {
  }

  /**
   * ProcessServerMessage: SYMBOL stores the content; YOUR_TURN enables the
   * move controls while connected; OPPONENT_TURN, WIN, LOSS and DRAW disable
   * them; "Disconnect" disconnects. BOARD, MESSAGE, VALID_MOVE, INVALID_MOVE
   * and unknown commands only touch the window, so nothing here changes.
   */
  function ConsumeSpec(c: ClientState, message: string): (r: ClientState)
    ensures r.sent == c.sent || r.sent == c.sent + [DisconnectToken]
    ensures r.connected ==> c.connected
    ensures r.symbol != c.symbol ==> SplitMessage(message).0 == SymbolCommand
    ensures r.moveEnabled != c.moveEnabled ==>
      SplitMessage(message).0 in {YourTurn, OpponentTurn, WinToken, LossToken, DrawToken}
  {
    var (command, content) := SplitMessage(message);
    if command == SymbolCommand then c.(symbol := Some(content))
    else if command == YourTurn then c.(moveEnabled := c.connected)
    else if command == OpponentTurn || command == WinToken || command == LossToken || command == DrawToken then
      c.(moveEnabled := false)
    else if command == DisconnectToken then DisconnectSpec(c)
    else c
  }

  /**
   * Every other command (MESSAGE, VALID_MOVE, INVALID_MOVE, BOARD or one the
   * client does not know) changes none of the client's state.
   */
  lemma OtherCommandIgnored(c: ClientState, message: string)
    requires var command := SplitMessage(message).0;
      command !in {SymbolCommand, YourTurn, OpponentTurn, WinToken, LossToken, DrawToken, DisconnectToken}
    ensures ConsumeSpec(c, message) == c
  {
  }

  /** The server's SYMBOL message gives the client that symbol and nothing else. */
  lemma SymbolMessage(c: ClientState, symbol: string)
    ensures ConsumeSpec(c, SymbolToken(symbol)) == c.(symbol := Some(symbol))
  {
    SplitJoin(SymbolCommand, symbol);
  }

  /** YOUR_TURN enables the move controls exactly when connected. */
  lemma YourTurnMessage(c: ClientState)
    ensures ConsumeSpec(c, YourTurn) == c.(moveEnabled := c.connected)
  {
    assert ' ' !in YourTurn;
    assert |YourTurn| != |SymbolCommand|;
  }

  /** OPPONENT_TURN and each of the three results disable the move controls and change nothing else. */
  lemma WaitMessage(c: ClientState, token: string)
    requires token == OpponentTurn || token == WinToken || token == LossToken || token == DrawToken
    ensures ConsumeSpec(c, token) == c.(moveEnabled := false)
  {
    assert ' ' !in token;
    assert |token| != |SymbolCommand| && |token| != |YourTurn|;
  }

  /** The server's shutdown message disconnects the client, which answers "Disconnect" if it was connected. */
  lemma ServerDisconnect(c: ClientState)
    ensures ConsumeSpec(c, DisconnectToken) == DisconnectSpec(c)
  {
    assert ' ' !in DisconnectToken;
  }

  /** A BOARD message changes none of the client's state: the board is only displayed. */
  lemma BoardMessage(c: ClientState, repr: string)
    ensures ConsumeSpec(c, BoardToken(repr)) == c
  {
    SplitJoin(BoardCommand, repr);
  }

  /** SendMove: "MOVE n" goes out only while connected and only for n in 1..9. */
  function SendMoveSpec(c: ClientState, text: string): (r: ClientState)
    ensures r.symbol == c.symbol && r.connected == c.connected && r.moveEnabled == c.moveEnabled
    ensures r.sent != c.sent <==> c.connected && MoveCell(text).Some?
    ensures r.sent != c.sent ==> r.sent == c.sent + [MoveToken(MoveCell(text).value)]
  {
    if c.connected && MoveCell(text).Some? then c.(sent := c.sent + [MoveToken(MoveCell(text).value)])
    else c
  }

  /**
   * Connect after the fields have been checked. `reply` is the server's
   * answer to the user name, or None when no connection could be opened.
   * Only the exact acceptance text connects the client.
   */
  function ConnectSpec(c: ClientState, ip: string, port: string, username: string, reply: Option<string>): (r: ClientState)
    ensures r.symbol == c.symbol && r.moveEnabled == c.moveEnabled
    ensures r.connected <==> c.connected || (ValidateInputs(ip, port, username) && reply == Some(Accepted))
    ensures r.sent == if ValidateInputs(ip, port, username) && reply.Some? then c.sent + [username] else c.sent
  {
    if !ValidateInputs(ip, port, username) || reply.None? then c
    else if reply.value != Accepted then c.(sent := c.sent + [username])
    else c.(connected := true, sent := c.sent + [username])
  }

  /** A refused name leaves a client that was not connected still not connected. */
  lemma NameTakenRefused(c: ClientState, ip: string, port: string, username: string)
    ensures !ConnectSpec(c, ip, port, username, Some(NameTaken)).connected <==> !c.connected
  {
    assert NameTaken[0] != Accepted[0];
  }

  /** The client object. */
  class ClientForm {
    var symbol: Option<string>
    var connected: bool
    var moveEnabled: bool
    var sent: seq<string>

    function State(): ClientState
      reads this
    {
      ClientState(symbol, connected, moveEnabled, sent)
    }

    /** No symbol, not connected, move button disabled, nothing written. */
    constructor ()
      ensures State() == Fresh
    {
      symbol := None;
      connected := false;
      moveEnabled := false;
      sent := [];
    }

    /** The move box and button follow `enable`, but never while disconnected. */
    method EnableMoveControls(enable: bool)
      modifies this`moveEnabled
      ensures moveEnabled == (enable && connected)
    {
      moveEnabled := enable && connected;
    }

    method Disconnect()
      modifies this`connected, this`sent
      ensures State() == DisconnectSpec(old(State()))
    {
      if connected {
        connected := false;
        sent := sent + [DisconnectToken];
      }
      // UpdateConnectionStatus(false)
      connected := false;
    }

    method ProcessServerMessage(message: string)
      modifies this
      ensures State() == ConsumeSpec(old(State()), message)
    {
      var tokens := SplitMessage(message);
      var command, content := tokens.0, tokens.1;
      if command == SymbolCommand {
        symbol := Some(content);
      } else if command == YourTurn {
        EnableMoveControls(true);
      } else if command == OpponentTurn || command == WinToken || command == LossToken || command == DrawToken {
        EnableMoveControls(false);
      } else if command == DisconnectToken {
        Disconnect();
      }
    }

    method SendMove(text: string)
      modifies this`sent
      ensures State() == SendMoveSpec(old(State()), text)
    {
      if !connected {
        return;
      }
      var move := ParseInt(text);
      if move.None? || move.value < 1 || move.value > 9 {
        return;
      }
      sent := sent + [MoveToken(move.value)];
    }

    method Connect(ip: string, port: string, username: string, reply: Option<string>)
      modifies this`connected, this`sent
      ensures State() == ConnectSpec(old(State()), ip, port, username, reply)
    {
      if !ValidateInputs(ip, port, username) {
        return;
      }
      if reply.None? {
        return;
      }
      sent := sent + [username];
      if reply.value != Accepted {
        return;
      }
      connected := true;
    }
  }
}
