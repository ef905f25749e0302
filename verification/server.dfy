/**
 * The session logic of the server (ServerForm.cs without its window).
 *
 * The server keeps the registered players by name, the names in the order
 * they registered, the current game, and — in this model — the messages it
 * has written, in order, as an outbox of (connection, text) pairs. Each
 * handler step runs as one atomic event: a registration, a message from a
 * registered player, the failure of a player's connection, or a stop.
 *
 * Two choices the C# code leaves to the `Dictionary` are parameters here:
 * the order in which `players` is enumerated when a message goes to every
 * player, and which other name `GetOpponentUsername` finds first.
 */
module Server {
  import opened Wrappers
  import opened Text
  import opened Wire
  import Game

  /** A client connection, known only by identity. */
  type ClientId = nat

  /** A `players` entry: the connection and the symbol ("" until the game starts). */
  datatype Player = Player(client: ClientId, symbol: string)

  /** One write of `text` to the connection `to`. */
  datatype Send = Send(to: ClientId, token: string)

  /** The value of a server: `players`, `playersReady`, `game` (None while null) and what it sent. */
  datatype ServerState = ServerState(
    players: map<string, Player>,
    ready: seq<string>,
    game: Option<Game.GameState>,
    outbox: seq<Send>)

  /** What ProcessClientMessage leaves behind, and whether it ended by throwing. */
  datatype Processed = Processed(state: ServerState, fault: bool)

  /** What a client message means to ProcessClientMessage. */
  datatype Decoded =
    | Ignored        // not "MOVE…", or no int after the fifth character
    | Malformed      // exactly "MOVE": `Substring(5)` throws
    | MoveTo(cell: int)

  const Empty: ServerState := ServerState(map[], [], None, [])

  /** The symbols StartGame hands out, by position in `playersReady`. */
  const Symbols: seq<string> := ["X", "O"]

  ghost predicate Distinct(names: seq<string>) {
    forall i, j :: 0 <= i < j < |names| ==> names[i] != names[j]
  }

  /** `order` lists every name of `keys` once: one enumeration of the dictionary. */
  ghost predicate IsOrder(order: seq<string>, keys: set<string>) {
    Distinct(order) && forall x :: x in order <==> x in keys
  }

  /** `playersReady` holds each registered name exactly once. */
  ghost predicate RegistryOk(players: map<string, Player>, ready: seq<string>) {
    Distinct(ready) && forall x :: x in ready <==> x in players
  }

  ghost predicate Inv(s: ServerState) {
    && RegistryOk(s.players, s.ready)
    && (s.game.Some? ==> Game.WellFormed(s.game.value.board) && (s.game.value.turn == "X" || s.game.value.turn == "O"))
  }

  /** `players.Keys.FirstOrDefault(k => k != username)`: another name, or None when there is none. */
  ghost predicate ValidOpponent(players: map<string, Player>, username: string, opponent: Option<string>) {
    match opponent
    case Some(o) => o in players && o != username
    case None => forall k :: k in players ==> k == username
  }

  /** One enumeration order of `keys`. */
  ghost function SomeOrder(keys: set<string>): (order: seq<string>)
    ensures IsOrder(order, keys)
    decreases keys
  {
    if keys == {} then []
    else
      var k :| k in keys;
      [k] + SomeOrder(keys - {k})
  }

  /** One answer GetOpponentUsername could give. */
  ghost function SomeOpponent(players: map<string, Player>, username: string): (opponent: Option<string>)
    ensures ValidOpponent(players, username, opponent)
  {
    if exists k :: k in players && k != username then
      var k :| k in players && k != username;
      Some(k)
    else None
  }

  /** `List.Remove`: drops the first occurrence of `x`, if any. */
  function RemoveFirst(s: seq<string>, x: string): (r: seq<string>)
    ensures x !in s ==> r == s
    ensures |r| == if x in s then |s| - 1 else |s|
  {
    if s == [] then []
    else if s[0] == x then s[1..]
    else [s[0]] + RemoveFirst(s[1..], x)
  }

  /** The position of the first occurrence of `x`. */
  function FirstIndex(s: seq<string>, x: string): (i: nat)
    requires x in s
    ensures i < |s| && s[i] == x && x !in s[..i]
  {
    if s[0] == x then 0
    else
      var j := FirstIndex(s[1..], x);
      assert s[..j + 1] == [s[0]] + s[1..][..j];
      j + 1
  }

  /** `List.Remove` drops the first occurrence of the name and keeps the rest in order. */
  lemma {:induction false} RemoveFirstAt(s: seq<string>, x: string)
    requires x in s
    ensures RemoveFirst(s, x) == s[..FirstIndex(s, x)] + s[FirstIndex(s, x) + 1..]
  {
    if s[0] != x {
      var j := FirstIndex(s[1..], x);
      RemoveFirstAt(s[1..], x);
      assert s[..j + 1] == [s[0]] + s[1..][..j];
      assert s[j + 2..] == s[1..][j + 1..];
    }
  }

  /** Removing a name keeps the other names distinct and drops exactly that name. */
  lemma {:induction false} RemoveFirstDistinct(s: seq<string>, x: string)
    requires Distinct(s)
    ensures Distinct(RemoveFirst(s, x))
    ensures forall y :: y in RemoveFirst(s, x) <==> y in s && y != x
  {
    if s != [] {
      assert s[0] !in s[1..] by {
        forall i | 0 <= i < |s[1..]| ensures s[1..][i] != s[0] { assert s[1..][i] == s[i + 1]; }
      }
      if s[0] != x {
        var rest := RemoveFirst(s[1..], x);
        RemoveFirstDistinct(s[1..], x);
        assert RemoveFirst(s, x) == [s[0]] + rest;
        forall i, j | 0 <= i < j < |[s[0]] + rest|
          ensures ([s[0]] + rest)[i] != ([s[0]] + rest)[j]
        {
          if i == 0 {
            assert ([s[0]] + rest)[j] == rest[j - 1];
          } else {
            assert ([s[0]] + rest)[i] == rest[i - 1] && ([s[0]] + rest)[j] == rest[j - 1];
          }
        }
      }
    }
  }

  /** `message` sent to every player, in the enumeration `order`. */
  function Broadcast(players: map<string, Player>, order: seq<string>, message: string): (r: seq<Send>)
    requires forall x :: x in order ==> x in players
    ensures |r| == |order|
    ensures forall i :: 0 <= i < |order| ==> r[i] == Send(players[order[i]].client, message)
  {
    if order == [] then []
    else Broadcast(players, order[..|order| - 1], message) + [Send(players[order[|order| - 1]].client, message)]
  }

  /** Every registered player receives a broadcast message exactly once. */
  lemma BroadcastReachesEveryone(players: map<string, Player>, order: seq<string>, message: string, name: string)
    requires IsOrder(order, players.Keys) && name in players
    ensures exists i :: 0 <= i < |order| && order[i] == name && Broadcast(players, order, message)[i] == Send(players[name].client, message)
  {
    var i :| 0 <= i < |order| && order[i] == name;
    assert Broadcast(players, order, message)[i] == Send(players[name].client, message);
  }

  /** The first `n` ready players after StartGame's loop has given them their symbols. */
  function Appoint(s: ServerState, n: nat): (r: ServerState)
    requires n <= |Symbols| && n <= |s.ready| && RegistryOk(s.players, s.ready)
    ensures r.players.Keys == s.players.Keys && r.ready == s.ready && r.game == s.game
    ensures RegistryOk(r.players, r.ready)
    ensures |r.outbox| == |s.outbox| + n && r.outbox[..|s.outbox|] == s.outbox
  {
    if n == 0 then s
    else
      var t := Appoint(s, n - 1);
      var name := t.ready[n - 1];
      var client := t.players[name].client;
      var r := t.(players := t.players[name := Player(client, Symbols[n - 1])],
                  outbox := t.outbox + [Send(client, SymbolToken(Symbols[n - 1]))]);
      assert r.outbox[..|s.outbox|] == t.outbox[..|s.outbox|];
      r
  }

  /** After both rounds of StartGame's loop: X and O given out, and both players told. */
  lemma AppointBoth(s: ServerState)
    requires |s.ready| >= 2 && RegistryOk(s.players, s.ready)
    ensures var r := Appoint(s, 2); var x, o := s.ready[0], s.ready[1];
      && x != o
      && r.players == s.players[x := Player(s.players[x].client, "X")][o := Player(s.players[o].client, "O")]
      && r.outbox == s.outbox + [Send(s.players[x].client, SymbolToken("X")), Send(s.players[o].client, SymbolToken("O"))]
  {
    var x, o := s.ready[0], s.ready[1];
    assert x != o;
    assert Appoint(s, 0) == s;
    var one := Appoint(s, 1);
    assert one == s.(players := s.players[x := Player(s.players[x].client, "X")],
                     outbox := s.outbox + [Send(s.players[x].client, SymbolToken("X"))]);
    assert one.players[o] == s.players[o];
  }

  /**
   * StartGame: a new game; X to the first ready player and O to the second,
   * each told its symbol; the new board to every player; then YOUR_TURN to
   * the first and OPPONENT_TURN to the second.
   */
  function StartGameSpec(s: ServerState, order: seq<string>): (r: ServerState)
    requires Inv(s) && |s.ready| >= 2 && IsOrder(order, s.players.Keys)
    ensures Inv(r) && r.ready == s.ready && r.players.Keys == s.players.Keys
    ensures r.game == Some(Game.Initial())
    ensures |r.outbox| > |s.outbox| && r.outbox[..|s.outbox|] == s.outbox
  {
    var t := Appoint(s.(game := Some(Game.Initial())), 2);
    var x, o := t.ready[0], t.ready[1];
    var boards := Broadcast(t.players, order, BoardToken(Game.InitialBoardText));
    var turns := [Send(t.players[x].client, YourTurn), Send(t.players[o].client, OpponentTurn)];
    var r := t.(outbox := t.outbox + (boards + turns));
    assert Inv(r) by {
      assert RegistryOk(r.players, r.ready);
    }
    assert r.outbox[..|s.outbox|] == s.outbox by {
      assert r.outbox[..|s.outbox|] == t.outbox[..|s.outbox|];
    }
    r
  }

  /**
   * What StartGame sends and whom it appoints: the first ready player gets X
   * and the second O, nobody else changes; the symbols, the board to every
   * player, then the turn notices, in that order.
   */
  lemma StartGameMessages(s: ServerState, order: seq<string>)
    requires Inv(s) && |s.ready| >= 2 && IsOrder(order, s.players.Keys)
    ensures var r := StartGameSpec(s, order); var x, o := s.ready[0], s.ready[1];
      && x != o
      && r.players == s.players[x := Player(s.players[x].client, "X")][o := Player(s.players[o].client, "O")]
      && r.outbox ==
           s.outbox
           + [Send(s.players[x].client, SymbolToken("X")), Send(s.players[o].client, SymbolToken("O"))]
           + Broadcast(r.players, order, BoardToken(Game.InitialBoardText))
           + [Send(s.players[x].client, YourTurn), Send(s.players[o].client, OpponentTurn)]
  {
    AppointBoth(s.(game := Some(Game.Initial())));
  }

  /**
   * Every registered player is sent the new board once the game starts. This is
   * stated for any number of ready names; at the one call from Register there
   * are exactly two, and they are all the registered players (`RegisterStartsGame`).
   */
  lemma EveryoneSeesNewBoard(s: ServerState, order: seq<string>, name: string)
    requires Inv(s) && |s.ready| >= 2 && IsOrder(order, s.players.Keys) && name in s.players
    ensures var r := StartGameSpec(s, order);
      Send(s.players[name].client, BoardToken(Game.InitialBoardText)) in r.outbox[|s.outbox|..]
  {
    var r := StartGameSpec(s, order);
    StartGameMessages(s, order);
    var x, o := s.ready[0], s.ready[1];
    var board := BoardToken(Game.InitialBoardText);
    var boards := Broadcast(r.players, order, board);
    var i :| 0 <= i < |order| && order[i] == name;
    assert r.players[name].client == s.players[name].client;
    assert boards[i] == Send(s.players[name].client, board);
    InTail(s.outbox, [Send(s.players[x].client, SymbolToken("X")), Send(s.players[o].client, SymbolToken("O"))],
      boards, [Send(s.players[x].client, YourTurn), Send(s.players[o].client, OpponentTurn)], boards[i]);
  }

  /** A message of the third part of a four-part outbox is among the writes after the first part. */
  lemma InTail(a: seq<Send>, b: seq<Send>, c: seq<Send>, d: seq<Send>, m: Send)
    requires m in c
    ensures m in (a + b + c + d)[|a|..]
  {
    assert (a + b + c + d)[|a|..] == b + c + d;
  }

  /** The state StartGame's steps leave behind is the one StartGameSpec describes. */
  lemma StartGameSteps(s: ServerState, order: seq<string>, t: ServerState)
    requires Inv(s) && |s.ready| >= 2 && IsOrder(order, s.players.Keys)
    requires var x, o := s.ready[0], s.ready[1];
      && t.players == s.players[x := Player(s.players[x].client, "X")][o := Player(s.players[o].client, "O")]
      && t.ready == s.ready && t.game == Some(Game.Initial())
      && t.outbox == s.outbox + [Send(s.players[x].client, SymbolToken("X")), Send(s.players[o].client, SymbolToken("O"))]
                     + Broadcast(t.players, order, BoardToken(Game.InitialBoardText))
                     + [Send(t.players[x].client, YourTurn)] + [Send(t.players[o].client, OpponentTurn)]
    ensures t == StartGameSpec(s, order)
  {
    var x, o := s.ready[0], s.ready[1];
    var r := StartGameSpec(s, order);
    StartGameMessages(s, order);
    var front := s.outbox + [Send(s.players[x].client, SymbolToken("X")), Send(s.players[o].client, SymbolToken("O"))]
                 + Broadcast(t.players, order, BoardToken(Game.InitialBoardText));
    assert front + [Send(t.players[x].client, YourTurn)] + [Send(t.players[o].client, OpponentTurn)]
        == front + [Send(t.players[x].client, YourTurn), Send(t.players[o].client, OpponentTurn)];
  }

  /**
   * Registration (the first message on a connection is the name). A taken
   * name is refused and nothing else changes; otherwise the player is added
   * with no symbol, appended to the ready list and accepted, and the game
   * starts when the ready list has just reached two names.
   */
  function RegisterSpec(s: ServerState, username: string, client: ClientId, order: seq<string>): (r: ServerState)
    requires Inv(s) && IsOrder(order, s.players.Keys + {username})
    ensures Inv(r)
    ensures username in s.players ==> r == s.(outbox := s.outbox + [Send(client, NameTaken)])
    ensures username !in s.players ==>
      && r.players.Keys == s.players.Keys + {username}
      && r.ready == s.ready + [username]
      && |r.outbox| > |s.outbox|
      && r.outbox[..|s.outbox| + 1] == s.outbox + [Send(client, Accepted)]
    ensures username !in s.players && |s.ready| != 1 ==>
      r == s.(players := s.players[username := Player(client, "")],
              ready := s.ready + [username],
              outbox := s.outbox + [Send(client, Accepted)])
    ensures r.game != s.game ==> username !in s.players && |s.ready| == 1 && r.game == Some(Game.Initial())
    ensures username !in s.players && |s.ready| == 1 ==> r.game == Some(Game.Initial())
  {
    if username in s.players then
      s.(outbox := s.outbox + [Send(client, NameTaken)])
    else
      var t := s.(players := s.players[username := Player(client, "")],
                  ready := s.ready + [username],
                  outbox := s.outbox + [Send(client, Accepted)]);
      assert RegistryOk(t.players, t.ready) by {
        assert forall i :: 0 <= i < |s.ready| ==> s.ready[i] in s.players;
      }
      if |t.ready| == 2 then
        var r := StartGameSpec(t, order);
        assert r.outbox[..|s.outbox| + 1] == r.outbox[..|t.outbox|];
        r
      else t
  }

  /**
   * A new name that joins a ready list of one starts the game: the waiting
   * player gets X, the newcomer O, and the new game is installed.
   */
  lemma RegisterStartsGame(s: ServerState, username: string, client: ClientId, order: seq<string>)
    requires Inv(s) && IsOrder(order, s.players.Keys + {username})
    requires username !in s.players && |s.ready| == 1
    ensures var t := s.(players := s.players[username := Player(client, "")],
                        ready := s.ready + [username],
                        outbox := s.outbox + [Send(client, Accepted)]);
      && Inv(t) && |t.ready| == 2 && IsOrder(order, t.players.Keys)
      && RegisterSpec(s, username, client, order) == StartGameSpec(t, order)
    ensures var r := RegisterSpec(s, username, client, order);
      && r.players[s.ready[0]] == Player(s.players[s.ready[0]].client, "X")
      && r.players[username] == Player(client, "O")
      && r.ready == [s.ready[0], username]
  {
    var t := s.(players := s.players[username := Player(client, "")],
                ready := s.ready + [username],
                outbox := s.outbox + [Send(client, Accepted)]);
    assert RegistryOk(t.players, t.ready) by {
      assert forall i :: 0 <= i < |s.ready| ==> s.ready[i] in s.players;
    }
    assert t.players.Keys == s.players.Keys + {username};
    assert RegisterSpec(s, username, client, order) == StartGameSpec(t, order);
    assert t.ready[0] == s.ready[0] && t.ready[1] == username;
    StartGameAppoints(t, order);
  }

  /** StartGame gives X to the first ready player and O to the second, and keeps the ready list. */
  lemma StartGameAppoints(s: ServerState, order: seq<string>)
    requires Inv(s) && |s.ready| >= 2 && IsOrder(order, s.players.Keys)
    ensures var r := StartGameSpec(s, order);
      && r.players[s.ready[0]] == Player(s.players[s.ready[0]].client, "X")
      && r.players[s.ready[1]] == Player(s.players[s.ready[1]].client, "O")
      && r.ready == s.ready
  {
    StartGameMessages(s, order);
  }

  /** When a registration starts the game, the two appointed players are all the registered players. */
  lemma StartedPairIsEveryone(s: ServerState, username: string, client: ClientId, order: seq<string>)
    requires Inv(s) && IsOrder(order, s.players.Keys + {username})
    requires username !in s.players && |s.ready| == 1
    ensures RegisterSpec(s, username, client, order).players.Keys == {s.ready[0], username}
  {
    RegisterStartsGame(s, username, client, order);
    var r := RegisterSpec(s, username, client, order);
    assert Inv(r);
    assert r.ready == [s.ready[0], username];
  }

  /** How ProcessClientMessage reads a message: `StartsWith("MOVE")`, then `int.TryParse(Substring(5))`. */
  function DecodeMove(message: string): (d: Decoded)
    ensures d.MoveTo? <==> StartsWith(message, MoveCommand) && |message| >= 5 && ParseInt(message[5..]).Some?
    ensures d.MoveTo? ==> Some(d.cell) == ParseInt(message[5..])
    ensures d.Malformed? <==> message == MoveCommand
  {
    if !StartsWith(message, MoveCommand) then Ignored
    else if |message| < 5 then Malformed
    else
      match ParseInt(message[5..])
      case None => Ignored
      case Some(cell) => MoveTo(cell)
  }

  /**
   * What follows an accepted move, on the state `t` in which the game holds
   * the move and VALID_MOVE has gone out: on a win, WIN to the mover and LOSS
   * to the opponent; on a draw, DRAW to every player; otherwise the turn
   * notices, YOUR_TURN to whoever holds the game's turn symbol. A missing
   * opponent throws after the mover's own message.
   */
  function AnnounceSpec(t: ServerState, username: string, status: Game.Status,
                        opponent: Option<string>, order: seq<string>): (r: Processed)
    requires Inv(t) && username in t.players && t.game.Some?
    requires ValidOpponent(t.players, username, opponent) && IsOrder(order, t.players.Keys)
    ensures r.state.players == t.players && r.state.ready == t.ready && r.state.game == t.game
    ensures |r.state.outbox| >= |t.outbox| && r.state.outbox[..|t.outbox|] == t.outbox
    ensures r.fault <==> opponent.None? && (status.status != "end" || status.result == Some("win"))
  {
    var mover := t.players[username];
    if status.status == "end" then
      if status.result == Some("win") then
        var won := t.outbox + [Send(mover.client, WinToken)];
        match opponent
        case None => Processed(t.(outbox := won), true)
        case Some(o) => Processed(t.(outbox := won + [Send(t.players[o].client, LossToken)]), false)
      else if status.result == Some("draw") then
        Processed(t.(outbox := t.outbox + Broadcast(t.players, order, DrawToken)), false)
      else
        Processed(t, false)
    else
      var moverToken := if t.game.value.turn == mover.symbol then YourTurn else OpponentTurn;
      var otherToken := if t.game.value.turn == mover.symbol then OpponentTurn else YourTurn;
      match opponent
      case None => Processed(t.(outbox := t.outbox + [Send(mover.client, moverToken)]), true)
      case Some(o) =>
        Processed(t.(outbox := t.outbox + [Send(mover.client, moverToken), Send(t.players[o].client, otherToken)]), false)
  }

  /**
   * The move of a registered player while a game exists: MakeMove with the
   * player's symbol; INVALID_MOVE alone when it is refused, otherwise
   * VALID_MOVE and then the announcements.
   */
  function MoveSpec(s: ServerState, username: string, cell: int,
                    opponent: Option<string>, order: seq<string>): (r: Processed)
    requires Inv(s) && username in s.players && s.game.Some?
    requires ValidOpponent(s.players, username, opponent) && IsOrder(order, s.players.Keys)
    ensures Inv(r.state)
    ensures r.state.players == s.players && r.state.ready == s.ready
    ensures |r.state.outbox| > |s.outbox| && r.state.outbox[..|s.outbox|] == s.outbox
    ensures var step := Game.Play(s.game.value, cell, s.players[username].symbol);
      && r.state.game == Some(step.after)
      && r.state.outbox[|s.outbox|] == Send(s.players[username].client, if step.valid then ValidMove else InvalidMove)
  {
    var mover := s.players[username];
    var step := Game.Play(s.game.value, cell, mover.symbol);
    var t := s.(game := Some(step.after));
    if !step.valid then
      Processed(t.(outbox := s.outbox + [Send(mover.client, InvalidMove)]), false)
    else
      var r := AnnounceSpec(t.(outbox := s.outbox + [Send(mover.client, ValidMove)]), username, step.status, opponent, order);
      assert r.state.outbox[|s.outbox|] == r.state.outbox[..|s.outbox| + 1][|s.outbox|];
      r
  }

  /**
   * ProcessClientMessage for the player `username`. `opponent` is what
   * GetOpponentUsername answers and `order` the enumeration a DRAW broadcast
   * uses. A fault is an exception escaping to the connection handler: the
   * message "MOVE", an unknown player, a move before any game exists, or a
   * missing opponent after the mover's own messages have gone out.
   */
  function ProcessSpec(s: ServerState, username: string, message: string,
                       opponent: Option<string>, order: seq<string>): (r: Processed)
    requires Inv(s) && ValidOpponent(s.players, username, opponent) && IsOrder(order, s.players.Keys)
    ensures Inv(r.state)
    ensures r.state.players == s.players && r.state.ready == s.ready
    ensures |r.state.outbox| >= |s.outbox| && r.state.outbox[..|s.outbox|] == s.outbox
    ensures !DecodeMove(message).MoveTo? ==> r.state == s && r.fault == DecodeMove(message).Malformed?
    ensures DecodeMove(message).MoveTo? && (username !in s.players || s.game.None?) ==> r == Processed(s, true)
    ensures r.state.game != s.game ==> username in s.players && s.game.Some? && DecodeMove(message).MoveTo?
  {
    match DecodeMove(message)
    case Ignored => Processed(s, false)
    case Malformed => Processed(s, true)
    case MoveTo(cell) =>
      if username !in s.players || s.game.None? then Processed(s, true)
      else MoveSpec(s, username, cell, opponent, order)
  }

  /**
   * The catch block of HandleClient: a named player's entry and ready-list
   * place are dropped; the other player is not told.
   */
  function RemoveSpec(s: ServerState, username: string): (r: ServerState)
    requires Inv(s)
    ensures Inv(r)
    ensures username == "" ==> r == s
    ensures username != "" ==> r.players == s.players - {username} && r.ready == RemoveFirst(s.ready, username)
    ensures r.game == s.game && r.outbox == s.outbox
    ensures forall n :: n in r.players ==> n in s.players && r.players[n] == s.players[n]
  {
    if username == "" then s
    else
      RemoveFirstDistinct(s.ready, username);
      s.(players := s.players - {username}, ready := RemoveFirst(s.ready, username))
  }

  /** One message from a registered player's connection, with the catch block when it throws. */
  function ReceiveSpec(s: ServerState, username: string, message: string,
                       opponent: Option<string>, order: seq<string>): (r: ServerState)
    requires Inv(s) && ValidOpponent(s.players, username, opponent) && IsOrder(order, s.players.Keys)
    ensures Inv(r)
  {
    var p := ProcessSpec(s, username, message, opponent, order);
    if p.fault then RemoveSpec(p.state, username) else p.state
  }

  /** StopServer: "Disconnect" to every player, then both collections emptied; the game object stays. */
  function StopSpec(s: ServerState, order: seq<string>): (r: ServerState)
    requires Inv(s) && IsOrder(order, s.players.Keys)
    ensures Inv(r) && r.players == map[] && r.ready == [] && r.game == s.game
    ensures |r.outbox| == |s.outbox| + |s.players| && r.outbox[..|s.outbox|] == s.outbox
    ensures forall m :: m in r.outbox[|s.outbox|..] ==> m.token == DisconnectToken
    ensures forall n :: n in s.players ==> Send(s.players[n].client, DisconnectToken) in r.outbox[|s.outbox|..]
  {
    var sends := Broadcast(s.players, order, DisconnectToken);
    var r := s.(players := map[], ready := [], outbox := s.outbox + sends);
    assert r.outbox[..|s.outbox|] == s.outbox && r.outbox[|s.outbox|..] == sends;
    assert |order| == |s.players| by {
      assert forall x :: x in order <==> x in s.players.Keys;
      OrderSize(order, s.players.Keys);
    }
    assert forall m :: m in sends ==> m.token == DisconnectToken;
    forall n | n in s.players
      ensures Send(s.players[n].client, DisconnectToken) in sends
    {
      BroadcastReachesEveryone(s.players, order, DisconnectToken, n);
    }
    r
  }

  /** An enumeration has as many entries as the set has elements. */
  lemma {:induction false} OrderSize(order: seq<string>, keys: set<string>)
    requires IsOrder(order, keys)
    ensures |order| == |keys|
  {
    if order != [] {
      var last := order[|order| - 1];
      var front := order[..|order| - 1];
      assert forall x :: x in front ==> x != last;
      assert IsOrder(front, keys - {last}) by {
        forall x ensures x in front <==> x in keys - {last} {
          if x in keys - {last} {
            var i :| 0 <= i < |order| && order[i] == x;
            assert i < |order| - 1;
            assert front[i] == x;
          }
        }
      }
      OrderSize(front, keys - {last});
    }
  }

  lemma FirstCharDiffers(t: string, prefix: string)
    requires |t| > 0 && |prefix| > 0 && t[0] != prefix[0]
    ensures !StartsWith(t, prefix)
  {
  }

  /** No BOARD message follows a move: clients see the board only when the game starts. */
  lemma NoBoardAfterMove(s: ServerState, username: string, message: string,
                         opponent: Option<string>, order: seq<string>)
    requires Inv(s) && ValidOpponent(s.players, username, opponent) && IsOrder(order, s.players.Keys)
    ensures var r := ProcessSpec(s, username, message, opponent, order).state;
      forall i :: |s.outbox| <= i < |r.outbox| ==> !StartsWith(r.outbox[i].token, BoardCommand)
  {
    var r := ProcessSpec(s, username, message, opponent, order).state;
    var tokens := [ValidMove, InvalidMove, YourTurn, OpponentTurn, WinToken, LossToken, DrawToken];
    assert forall t :: t in tokens ==> !StartsWith(t, BoardCommand) by {
      FirstCharDiffers(ValidMove, BoardCommand);
      FirstCharDiffers(InvalidMove, BoardCommand);
      FirstCharDiffers(YourTurn, BoardCommand);
      FirstCharDiffers(OpponentTurn, BoardCommand);
    }
    forall i | |s.outbox| <= i < |r.outbox|
      ensures r.outbox[i].token in tokens
    {
    }
  }

  /**
   * A refused move (cell out of range or taken) by a registered player while
   * a game exists: INVALID_MOVE to the mover alone, and the game unchanged.
   */
  lemma RefusedMoveReply(s: ServerState, username: string, message: string,
                         opponent: Option<string>, order: seq<string>)
    requires Inv(s) && ValidOpponent(s.players, username, opponent) && IsOrder(order, s.players.Keys)
    requires username in s.players && s.game.Some? && DecodeMove(message).MoveTo?
    requires !Game.Play(s.game.value, DecodeMove(message).cell, s.players[username].symbol).valid
    ensures var r := ProcessSpec(s, username, message, opponent, order);
      && !r.fault && r.state.game == s.game
      && r.state.outbox == s.outbox + [Send(s.players[username].client, InvalidMove)]
  {
  }

  /**
   * An accepted move: VALID_MOVE to the mover first; then on a win WIN to
   * the mover and LOSS to the opponent (a throw when there is none), and on
   * a draw DRAW to every player.
   */
  lemma AcceptedMoveReplies(s: ServerState, username: string, message: string,
                            opponent: Option<string>, order: seq<string>)
    requires Inv(s) && ValidOpponent(s.players, username, opponent) && IsOrder(order, s.players.Keys)
    requires username in s.players && s.game.Some? && DecodeMove(message).MoveTo?
    requires Game.Play(s.game.value, DecodeMove(message).cell, s.players[username].symbol).valid
    ensures var mover := s.players[username];
      var step := Game.Play(s.game.value, DecodeMove(message).cell, mover.symbol);
      var r := ProcessSpec(s, username, message, opponent, order);
      && r.state.game == Some(step.after)
      && |r.state.outbox| > |s.outbox| && r.state.outbox[|s.outbox|] == Send(mover.client, ValidMove)
      && (step.status == Game.Won && opponent.Some? ==>
            !r.fault && r.state.outbox == s.outbox + [Send(mover.client, ValidMove), Send(mover.client, WinToken),
                                                      Send(s.players[opponent.value].client, LossToken)])
      && (step.status == Game.Won && opponent.None? ==>
            r.fault && r.state.outbox == s.outbox + [Send(mover.client, ValidMove), Send(mover.client, WinToken)])
      && (step.status == Game.Drawn ==>
            !r.fault && r.state.outbox == s.outbox + [Send(mover.client, ValidMove)] + Broadcast(s.players, order, DrawToken))
  {
  }

  /**
   * Any accepted move that neither wins nor draws, whatever the mover's
   * symbol: VALID_MOVE, then YOUR_TURN to the mover exactly when the game's
   * new turn equals the mover's symbol and OPPONENT_TURN otherwise, then the
   * other notice to the opponent; with no opponent the step throws after the
   * mover's notice.
   */
  lemma AcceptedContinueReplies(s: ServerState, username: string, message: string,
                                opponent: Option<string>, order: seq<string>)
    requires Inv(s) && ValidOpponent(s.players, username, opponent) && IsOrder(order, s.players.Keys)
    requires username in s.players && s.game.Some? && DecodeMove(message).MoveTo?
    requires var step := Game.Play(s.game.value, DecodeMove(message).cell, s.players[username].symbol);
      step.valid && step.status == Game.Continue
    ensures var mover := s.players[username];
      var step := Game.Play(s.game.value, DecodeMove(message).cell, mover.symbol);
      var mine := step.after.turn == mover.symbol;
      var r := ProcessSpec(s, username, message, opponent, order);
      && r.fault == opponent.None?
      && r.state.game == Some(step.after)
      && r.state.outbox == s.outbox + [Send(mover.client, ValidMove), Send(mover.client, if mine then YourTurn else OpponentTurn)]
                           + (if opponent.Some? then [Send(s.players[opponent.value].client, if mine then OpponentTurn else YourTurn)] else [])
  {
    var mover := s.players[username];
    var step := Game.Play(s.game.value, DecodeMove(message).cell, mover.symbol);
    var r := ProcessSpec(s, username, message, opponent, order);
    var front := s.outbox + [Send(mover.client, ValidMove)];
    assert r == AnnounceSpec(s.(game := Some(step.after), outbox := front), username, step.status, opponent, order);
    assert front + [Send(mover.client, if step.after.turn == mover.symbol then YourTurn else OpponentTurn)] + []
        == front + [Send(mover.client, if step.after.turn == mover.symbol then YourTurn else OpponentTurn)];
  }

  /**
   * A move in turn that neither wins nor draws hands the turn over: the
   * mover is told OPPONENT_TURN and the opponent YOUR_TURN.
   */
  lemma InTurnMoveHandsOver(s: ServerState, username: string, message: string,
                            opponent: Option<string>, order: seq<string>)
    requires Inv(s) && ValidOpponent(s.players, username, opponent) && IsOrder(order, s.players.Keys)
    requires username in s.players && s.game.Some? && DecodeMove(message).MoveTo? && opponent.Some?
    requires s.players[username].symbol == s.game.value.turn
    requires var step := Game.Play(s.game.value, DecodeMove(message).cell, s.players[username].symbol);
      step.valid && step.status == Game.Continue
    ensures var r := ProcessSpec(s, username, message, opponent, order);
      && !r.fault
      && r.state.outbox == s.outbox + [Send(s.players[username].client, ValidMove),
                                       Send(s.players[username].client, OpponentTurn),
                                       Send(s.players[opponent.value].client, YourTurn)]
  {
    var step := Game.Play(s.game.value, DecodeMove(message).cell, s.players[username].symbol);
    assert step.after.turn != s.players[username].symbol;
  }

  /**
   * Whose turn it is is not checked: a player holding the other real symbol
   * may move, the game's turn then flips to that player's own symbol, and
   * the same player is told YOUR_TURN again.
   */
  lemma OutOfTurnMoveKeepsTurn(s: ServerState, username: string, message: string,
                               opponent: Option<string>, order: seq<string>)
    requires Inv(s) && ValidOpponent(s.players, username, opponent) && IsOrder(order, s.players.Keys)
    requires username in s.players && s.game.Some? && DecodeMove(message).MoveTo? && opponent.Some?
    requires s.players[username].symbol in {"X", "O"} && s.players[username].symbol != s.game.value.turn
    requires var step := Game.Play(s.game.value, DecodeMove(message).cell, s.players[username].symbol);
      step.valid && step.status == Game.Continue
    ensures var r := ProcessSpec(s, username, message, opponent, order);
      && !r.fault
      && r.state.game.value.turn == s.players[username].symbol
      && r.state.outbox == s.outbox + [Send(s.players[username].client, ValidMove),
                                       Send(s.players[username].client, YourTurn),
                                       Send(s.players[opponent.value].client, OpponentTurn)]
  {
    var step := Game.Play(s.game.value, DecodeMove(message).cell, s.players[username].symbol);
    assert step.after.turn == s.players[username].symbol;
  }

  /**
   * A move, or the bare message "MOVE", from a named player before any game
   * exists throws, and the connection handler then drops that player
   * without sending anything.
   */
  lemma MoveBeforeGameDropsPlayer(s: ServerState, username: string, message: string,
                                  opponent: Option<string>, order: seq<string>)
    requires Inv(s) && ValidOpponent(s.players, username, opponent) && IsOrder(order, s.players.Keys)
    requires s.game.None? && username != ""
    requires DecodeMove(message).MoveTo? || message == MoveCommand
    ensures var r := ReceiveSpec(s, username, message, opponent, order);
      && r == RemoveSpec(s, username)
      && username !in r.players && r.outbox == s.outbox
  {
  }


  /** The state after alice has registered on connection 1 of an idle server. */
  const AliceWaiting: ServerState := ServerState(map["alice" := Player(1, "")], ["alice"], None, [Send(1, Accepted)])

  /** The state after bob has registered on connection 2, just before StartGame. */
  const BothWaiting: ServerState :=
    ServerState(map["alice" := Player(1, ""), "bob" := Player(2, "")], ["alice", "bob"], None,
                [Send(1, Accepted), Send(2, Accepted)])

  lemma RegisterAlice()
    ensures RegisterSpec(Empty, "alice", 1, ["alice"]) == AliceWaiting
  {
  }

  lemma WaitingOk()
    ensures Inv(AliceWaiting) && IsOrder(["alice", "bob"], AliceWaiting.players.Keys + {"bob"})
    ensures Inv(BothWaiting) && IsOrder(["alice", "bob"], BothWaiting.players.Keys)
  {
    assert "alice" != "bob" by { assert "alice"[0] != "bob"[0]; }
  }

  lemma RegisterBob()
    ensures IsOrder(["alice", "bob"], {"alice", "bob"}) && Inv(BothWaiting)
    ensures RegisterSpec(AliceWaiting, "bob", 2, ["alice", "bob"]) == StartGameSpec(BothWaiting, ["alice", "bob"])
  {
    WaitingOk();
    assert "bob" !in AliceWaiting.players;
    assert |AliceWaiting.ready| == 1;
    assert AliceWaiting.(players := AliceWaiting.players["bob" := Player(2, "")],
                         ready := AliceWaiting.ready + ["bob"],
                         outbox := AliceWaiting.outbox + [Send(2, Accepted)]) == BothWaiting;
  }

  lemma StartAliceAndBob()
    requires Inv(BothWaiting) && IsOrder(["alice", "bob"], BothWaiting.players.Keys)
    ensures var s := StartGameSpec(BothWaiting, ["alice", "bob"]);
      && s.players == map["alice" := Player(1, "X"), "bob" := Player(2, "O")]
      && s.outbox == [Send(1, Accepted), Send(2, Accepted),
                      Send(1, SymbolToken("X")), Send(2, SymbolToken("O")),
                      Send(1, BoardToken(Game.InitialBoardText)), Send(2, BoardToken(Game.InitialBoardText)),
                      Send(1, YourTurn), Send(2, OpponentTurn)]
  {
    StartGameMessages(BothWaiting, ["alice", "bob"]);
    var s := StartGameSpec(BothWaiting, ["alice", "bob"]);
    assert s.players == map["alice" := Player(1, "X"), "bob" := Player(2, "O")];
  }

  /** The state once alice and bob have both registered and the game has started. */
  const Started: ServerState :=
    ServerState(map["alice" := Player(1, "X"), "bob" := Player(2, "O")], ["alice", "bob"], Some(Game.Initial()),
                [Send(1, Accepted), Send(2, Accepted),
                 Send(1, SymbolToken("X")), Send(2, SymbolToken("O")),
                 Send(1, BoardToken(Game.InitialBoardText)), Send(2, BoardToken(Game.InitialBoardText)),
                 Send(1, YourTurn), Send(2, OpponentTurn)])

  /**
   * alice registers on connection 1 and bob on connection 2 (the dictionary
   * enumerating alice first): both are accepted, alice gets X and the first
   * turn, bob gets O, and both get the new board.
   */
  lemma AliceAndBobStart()
    ensures IsOrder(["alice", "bob"], {"alice", "bob"})
    ensures RegisterSpec(RegisterSpec(Empty, "alice", 1, ["alice"]), "bob", 2, ["alice", "bob"]) == Started
  {
    RegisterAlice();
    RegisterBob();
    StartAliceAndBob();
    var s := StartGameSpec(BothWaiting, ["alice", "bob"]);
    assert s.ready == ["alice", "bob"];
  }

  /** Reading back a move written as "MOVE n" gives the cell n. */
  lemma DecodeMoveToken(cell: nat)
    requires cell <= Int32Max
    ensures DecodeMove(MoveToken(cell)) == MoveTo(cell)
  {
    ParseNatToString(cell);
    assert MoveToken(cell)[..4] == MoveCommand;
    assert MoveToken(cell)[5..] == NatToString(cell);
  }

  lemma StartedOk()
    ensures Inv(Started) && IsOrder(["alice", "bob"], Started.players.Keys)
    ensures ValidOpponent(Started.players, "alice", Some("bob"))
  {
    assert "alice" != "bob" by { assert "alice"[0] != "bob"[0]; }
    assert !AllDigits("X") by { assert "X"[0] == 'X'; }
    Game.InitialGame("X");
  }

  /**
   * alice then opens in the centre: the move is acknowledged, alice is told
   * OPPONENT_TURN and bob YOUR_TURN, cell 5 holds X, and no board is sent.
   */
  lemma AliceOpensCentre()
    ensures Inv(Started) && IsOrder(["alice", "bob"], Started.players.Keys)
    ensures ValidOpponent(Started.players, "alice", Some("bob"))
    ensures var r := ProcessSpec(Started, "alice", MoveToken(5), Some("bob"), ["alice", "bob"]);
      && !r.fault
      && r.state.game == Some(Game.GameState(Game.Initial().board[5 := "X"], "O"))
      && r.state.outbox == Started.outbox + [Send(1, ValidMove), Send(1, OpponentTurn), Send(2, YourTurn)]
  {
    StartedOk();
    DecodeMoveToken(5);
    Game.CentreOpening();
  }

  /**
   * The server object: `players`, `playersReady` and `game` as ServerForm
   * holds them, and `outbox`, the messages it has written so far.
   */
  class ServerForm {
    var players: map<string, Player>
    var playersReady: seq<string>
    var game: Game.TicTacToeGame?
    var outbox: seq<Send>

    ghost predicate Valid()
      reads this, game
    {
      RegistryOk(players, playersReady) && (game != null ==> game.Valid())
    }

    /** The server's value: what the specification functions above act on. */
    function Abstract(): ServerState
      reads this, game
    {
      ServerState(players, playersReady, if game == null then None else Some(game.State()), outbox)
    }

    /** No players, nobody ready, no game, nothing sent. */
    constructor ()
      ensures Valid() && Abstract() == Empty
    {
      players := map[];
      playersReady := [];
      game := null;
      outbox := [];
    }

    /** Writes `message` to `client`; a failed write is swallowed, so every call is recorded. */
    method SendMessage(client: ClientId, message: string)
      modifies this`outbox
      ensures outbox == old(outbox) + [Send(client, message)]
    {
      outbox := outbox + [Send(client, message)];
    }

    /** `message` to every player, in the enumeration order `order` of `players`. */
    method BroadcastMessage(message: string) returns (ghost order: seq<string>)
      modifies this`outbox
      ensures IsOrder(order, players.Keys)
      ensures outbox == old(outbox) + Broadcast(players, order, message)
    {
      order := [];
      var pending := players.Keys;
      while pending != {}
        invariant pending <= players.Keys
        invariant IsOrder(order, players.Keys - pending)
        invariant outbox == old(outbox) + Broadcast(players, order, message)
        decreases pending
      {
        var name :| name in pending;
        SendMessage(players[name].client, message);
        assert (order + [name])[..|order|] == order;
        order := order + [name];
        pending := pending - {name};
      }
    }

    /** The current board text, as BOARD, to every player. */
    method BroadcastBoard() returns (ghost order: seq<string>)
      requires game != null && game.Valid()
      modifies this`outbox
      ensures IsOrder(order, players.Keys)
      ensures outbox == old(outbox) + Broadcast(players, order, BoardToken(Game.Render(game.board)))
    {
      var boardRepr := game.GetBoardRepresentation();
      order := BroadcastMessage(BoardToken(boardRepr));
    }

    /** The first key other than `username`, or None when there is no such key. */
    method GetOpponentUsername(username: string) returns (opponent: Option<string>)
      ensures ValidOpponent(players, username, opponent)
    {
      var pending := players.Keys;
      while pending != {}
        invariant pending <= players.Keys
        invariant forall k :: k in players && k !in pending ==> k == username
        decreases pending
      {
        var k :| k in pending;
        if k != username {
          return Some(k);
        }
        pending := pending - {k};
      }
      return None;
    }

    /** StartGame's loop: the i-th ready player is given `Symbols[i]` and told so. */
    method AppointSymbols()
      requires RegistryOk(players, playersReady) && |playersReady| >= 2
      modifies this`players, this`outbox
      ensures var x, o := playersReady[0], playersReady[1];
        && players == old(players)[x := Player(old(players)[x].client, "X")][o := Player(old(players)[o].client, "O")]
        && outbox == old(outbox) + [Send(old(players)[x].client, SymbolToken("X")), Send(old(players)[o].client, SymbolToken("O"))]
    {
      ghost var s := ServerState(players, playersReady, None, outbox);
      var i := 0;
      while i < 2
        invariant 0 <= i <= 2 && playersReady == s.ready
        invariant players == Appoint(s, i).players && outbox == Appoint(s, i).outbox
      {
        var username := playersReady[i];
        var playerClient := players[username].client;
        players := players[username := Player(playerClient, Symbols[i])];
        SendMessage(playerClient, SymbolToken(Symbols[i]));
        i := i + 1;
      }
      AppointBoth(s);
    }

    /** A new game; X and O to the first two ready players; the board to all; then the turn notices. */
    method StartGame() returns (ghost order: seq<string>)
      requires Valid() && |playersReady| >= 2
      modifies this
      ensures Valid() && fresh(game)
      ensures IsOrder(order, old(players).Keys)
      ensures Abstract() == StartGameSpec(old(Abstract()), order)
    {
      ghost var s := Abstract();
      game := new Game.TicTacToeGame();
      AppointSymbols();
      order := BroadcastBoard();
      SendMessage(players[playersReady[0]].client, YourTurn);
      SendMessage(players[playersReady[1]].client, OpponentTurn);
      Game.InitialRender(game.board);
      StartGameSteps(s, order, Abstract());
    }

    /**
     * A new connection whose first message is `username`: a taken name is
     * refused; otherwise the player is added and accepted, and the second
     * ready player starts the game.
     */
    method Register(username: string, client: ClientId) returns (accepted: bool, ghost order: seq<string>)
      requires Valid()
      modifies this
      ensures Valid()
      ensures accepted <==> username !in old(players)
      ensures IsOrder(order, old(players).Keys + {username})
      ensures Abstract() == RegisterSpec(old(Abstract()), username, client, order)
    {
      if username in players {
        SendMessage(client, NameTaken);
        order := SomeOrder(players.Keys);
        assert players.Keys + {username} == players.Keys;
        return false, order;
      }
      ghost var s := Abstract();
      players := players[username := Player(client, "")];
      playersReady := playersReady + [username];
      SendMessage(client, Accepted);
      assert Valid() by {
        assert forall i :: 0 <= i < |s.ready| ==> s.ready[i] in s.players;
      }
      if |playersReady| == 2 {
        order := StartGame();
      } else {
        order := SomeOrder(players.Keys);
      }
      accepted := true;
    }

    /** The messages that follow an accepted move, as AnnounceSpec describes them. */
    method Announce(username: string, status: Game.Status)
      returns (fault: bool, ghost opponent: Option<string>, ghost order: seq<string>)
      requires Valid() && username in players && game != null
      modifies this`outbox
      ensures ValidOpponent(players, username, opponent) && IsOrder(order, players.Keys)
      ensures Processed(Abstract(), fault) == AnnounceSpec(old(Abstract()), username, status, opponent, order)
    {
      var playerInfo := players[username];
      opponent := SomeOpponent(players, username);
      order := SomeOrder(players.Keys);
      if status.status == "end" {
        if status.result == Some("win") {
          SendMessage(playerInfo.client, WinToken);
          var o := GetOpponentUsername(username);
          opponent := o;
          if o.None? {
            // `players[null]` throws.
            return true, opponent, order;
          }
          SendMessage(players[o.value].client, LossToken);
        } else if status.result == Some("draw") {
          order := BroadcastMessage(DrawToken);
        }
      } else {
        var o := GetOpponentUsername(username);
        opponent := o;
        var moverToken, otherToken := OpponentTurn, YourTurn;
        if game.Turn == playerInfo.symbol {
          moverToken, otherToken := YourTurn, OpponentTurn;
        }
        SendMessage(playerInfo.client, moverToken);
        if o.None? {
          return true, opponent, order;
        }
        SendMessage(players[o.value].client, otherToken);
      }
      return false, opponent, order;
    }

    /** The move of a registered player while a game exists, as MoveSpec describes it. */
    method ApplyMove(username: string, cell: int)
      returns (fault: bool, ghost opponent: Option<string>, ghost order: seq<string>)
      requires Valid() && username in players && game != null
      modifies this`outbox, game
      ensures Valid()
      ensures ValidOpponent(players, username, opponent) && IsOrder(order, players.Keys)
      ensures Processed(Abstract(), fault) == MoveSpec(old(Abstract()), username, cell, opponent, order)
    {
      var playerInfo := players[username];
      var valid, gameStatus := game.MakeMove(cell, playerInfo.symbol);
      if !valid {
        SendMessage(playerInfo.client, InvalidMove);
        return false, SomeOpponent(players, username), SomeOrder(players.Keys);
      }
      SendMessage(playerInfo.client, ValidMove);
      fault, opponent, order := Announce(username, gameStatus);
    }

    /**
     * A message from the player `username`. `fault` is true when the C# code
     * would throw; `opponent` and `order` are the dictionary's answers.
     */
    method ProcessClientMessage(username: string, message: string)
      returns (fault: bool, ghost opponent: Option<string>, ghost order: seq<string>)
      requires Valid()
      modifies this`outbox, game
      ensures Valid()
      ensures ValidOpponent(players, username, opponent) && IsOrder(order, players.Keys)
      ensures Processed(Abstract(), fault) == ProcessSpec(old(Abstract()), username, message, opponent, order)
    {
      opponent := SomeOpponent(players, username);
      order := SomeOrder(players.Keys);
      if !StartsWith(message, MoveCommand) {
        return false, opponent, order;
      }
      if |message| < 5 {
        // `Substring(5)` on "MOVE" throws.
        return true, opponent, order;
      }
      var parsed := ParseInt(message[5..]);
      if parsed.None? {
        return false, opponent, order;
      }
      if username !in players || game == null {
        // `players[username]` or `game.MakeMove` throws.
        return true, opponent, order;
      }
      fault, opponent, order := ApplyMove(username, parsed.value);
    }

    /** The catch block of HandleClient: a named player is dropped from both collections. */
    method RemovePlayer(username: string)
      requires Valid()
      modifies this`players, this`playersReady
      ensures Valid()
      ensures Abstract() == RemoveSpec(old(Abstract()), username)
    {
      if username != "" {
        RemoveFirstDistinct(playersReady, username);
        players := players - {username};
        playersReady := RemoveFirst(playersReady, username);
      }
    }

    /** One read on a registered player's connection: the message, then the catch block if it threw. */
    method HandleMessage(username: string, message: string) returns (ghost opponent: Option<string>, ghost order: seq<string>)
      requires Valid()
      modifies this`players, this`playersReady, this`outbox, game
      ensures Valid()
      ensures ValidOpponent(old(players), username, opponent) && IsOrder(order, old(players).Keys)
      ensures Abstract() == ReceiveSpec(old(Abstract()), username, message, opponent, order)
    {
      var fault;
      fault, opponent, order := ProcessClientMessage(username, message);
      if fault {
        RemovePlayer(username);
      }
    }

    /** StopServer: "Disconnect" to every player, then both collections cleared. */
    method StopServer() returns (ghost order: seq<string>)
      requires Valid()
      modifies this`players, this`playersReady, this`outbox
      ensures Valid()
      ensures IsOrder(order, old(players).Keys)
      ensures Abstract() == StopSpec(old(Abstract()), order)
    {
      order := BroadcastMessage(DisconnectToken);
      players := map[];
      playersReady := [];
    }
  }
}
