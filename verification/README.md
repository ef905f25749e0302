# Networked Tic-Tac-Toe: game, server session and client protocol

A Dafny model of the game logic of a two-player Tic-Tac-Toe system. A WinForms
server accepts TCP clients. Each client registers by name. The first two
ready players get X and O. Their moves go through a `TicTacToeGame`, and the
server answers with short text tokens (`SYMBOL X`, `BOARD …`, `YOUR_TURN`,
`VALID_MOVE`, `WIN`, …). The model covers three parts:

- `TicTacToeGame.cs`, in module `Game`:
  - a `TicTacToeGame` class whose `board` map and `Turn` field are updated in place;
  - the pure value-level move function `Play`.
  - Each method is proved against that function: the constructor gives `Initial()`, `MakeMove` gives `Play`, `CheckWin` gives `HasWin`, and `GetBoardRepresentation` gives `Render`.
  - The lemmas state the game rules: the eight lines of the grid, winning moves, claimed cells staying claimed, and the board text layout.
- The session logic of `ServerForm.cs`, in module `Server`:
  - a `ServerForm` class with the `players` dictionary, the `playersReady` list, the `game` reference and an `outbox` of `(connection, text)` writes;
  - each handler step as one atomic event: a registration, a message from a player, the catch block after an exception, and a stop.
  - Every method's contract ties the new state to a pure function of the old state (`RegisterSpec`, `StartGameSpec`, `ProcessSpec`, `RemoveSpec`, `ReceiveSpec`, `StopSpec`). The lemmas then state the reply matrix: who is told what, in which order, and when a step throws.
  - The `Dictionary` leaves two choices open: the enumeration order of `players` and the key `FirstOrDefault` finds. These are ghost out-parameters, constrained only by `IsOrder` and `ValidOpponent`.
- The protocol side of `ClientForm.cs`, in module `Client`:
  - a `ClientForm` class with `symbol`, `connected`, the move-controls flag and the list of messages written;
  - each handler proved against a pure function of the client's value.
- Module `Protocol` joins the two ends. A client's `MOVE n` is decoded by the server as cell `n`. A client that reads the start-of-game messages ends up with its symbol, and its move button is on only for X.

Supporting modules:

- `Wrappers`: `Option`.
- `Text`:
  - the character classes and decimal text the code relies on, namely `char.IsDigit`, `int.ToString`, `int.TryParse`, `StartsWith` and `IsNullOrWhiteSpace`;
  - the round trip from `ToString` back through `TryParse`.
- `Wire`: the protocol's tokens.

Exceptions become explicit results:

- Some steps throw in the C# code:
  - `Substring(5)` on the bare message `MOVE`;
  - `players[username]` for a name no longer registered;
  - `game.MakeMove` before any game exists;
  - `players[null]` when no opponent exists.
- `ProcessClientMessage` reports each of these as `fault`. `HandleMessage` then runs the connection's catch block, which drops the player.

Four behaviours of the code are easy to miss, and the model keeps them:

- Turns are not checked. Any registered player with a game present may move, using the symbol stored for them. After an out-of-turn move by the X or O player, the turn becomes that player's own symbol (`OutOfTurnMoveKeepsTurn`).
- No `BOARD` is sent after a move. The server only refreshes its own window (`NoBoardAfterMove`). Clients receive the board only when a game starts.
- There is no capacity limit, and a player is not told when the opponent leaves. A game starts only when a registration finds exactly one name ready. If one of two players drops and nobody else is waiting, the next registrant is paired with the one who stayed (`RegisterStartsGame`). A name that registered while two were ready is appointed only after the list has shrunk to one name and a new name registers. Until then it keeps the empty symbol, with which it may still move (`DigitSymbolLeavesCellFree`).
- A won game still takes moves. `MakeMove` never looks at an earlier result and the server keeps the game, so after a win any free cell is still accepted (`MoveAfterWin`). A drawn game takes none, because a draw leaves no free cell (`NoMoveAfterDraw`).

## Model

| member | source | states |
|---|---|---|
| Text.NatToString | TicTacToe/TicTacToeServer/src/TicTacToeGame.cs:18 | `int.ToString` for a non-negative value: at least one character, all of them digits, no leading zero, and a single character exactly for values below 10 |
| Text.NatToStringValue | TicTacToe/TicTacToeServer/src/TicTacToeGame.cs:18 | the digits written for `n` denote `n` again |
| Text.ParseInt | TicTacToe/TicTacToeClient/src/ClientForm.cs:194 | `int.TryParse`: a success lies in the 32-bit range and the text holds a digit; a plain digit string within range parses to its value |
| Text.ParseNatToString | TicTacToe/TicTacToeClient/src/ClientForm.cs:355 | every non-negative `int` written with `ToString` parses back to itself |
| Text.AllDigits | TicTacToe/TicTacToeServer/src/TicTacToeGame.cs:25 | `s.All(char.IsDigit)`: every character is a digit, so it holds of the empty text |
| Text.StartsWith | TicTacToe/TicTacToeServer/src/ServerForm.cs:235 | ordinal `StartsWith`: the text begins with the prefix |
| Text.IsDigit | TicTacToe/TicTacToeServer/src/TicTacToeGame.cs:25 | `char.IsDigit` on the ASCII range: the characters 0 to 9 |
| Text.IsWhiteSpace | TicTacToe/TicTacToeClient/src/ClientForm.cs:186-188 | `char.IsWhiteSpace` on the control and Latin-1 range: space, tab to carriage return, next line and no-break space |
| Text.IsNullOrWhiteSpace | TicTacToe/TicTacToeClient/src/ClientForm.cs:186-188 | `string.IsNullOrWhiteSpace` on a non-null string: no character other than white space |
| Wire.SymbolToken | TicTacToe/TicTacToeServer/src/ServerForm.cs:304 | the text `SYMBOL`, a space and the symbol |
| Wire.BoardToken | TicTacToe/TicTacToeServer/src/ServerForm.cs:343 | the text `BOARD`, a space and the board text, which is kept whole |
| Wire.MoveToken | TicTacToe/TicTacToeClient/src/ClientForm.cs:355 | "MOVE n" has `MOVE` in its first four characters, a space in the fifth, and from the sixth on exactly the decimal text of n, which is the part the server parses |
| Game.Initial | TicTacToe/TicTacToeServer/src/TicTacToeGame.cs:13-21 | a new game has exactly the cells 1..9, and X is to move |
| Game.InitialGame | TicTacToe/TicTacToeServer/src/TicTacToeGame.cs:13-21 | in a new game every cell shows its own number and is free; no symbol, not even the empty one, has won; the board is not full |
| Game.Toggle | TicTacToe/TicTacToeServer/src/TicTacToeGame.cs:35 | the next turn is always X or O, and differs from a turn that already is X or O |
| Game.Owns | TicTacToe/TicTacToeServer/src/TicTacToeGame.cs:50 | `combination.All(cell => board[cell] == symbol)`: every cell of the combination holds the symbol |
| Game.HasWin | TicTacToe/TicTacToeServer/src/TicTacToeGame.cs:39-54 | CheckWin's decision: some winning combination holds the symbol in all three cells; `HasWinGeometric` and `CheckWin` are its partners |
| Game.IsFree | TicTacToe/TicTacToeServer/src/TicTacToeGame.cs:25 | a cell is free when its text is all digits, as the move guard tests |
| Game.IsFull | TicTacToe/TicTacToeServer/src/TicTacToeGame.cs:56-59 | CheckDraw: no cell text is all digits |
| Game.FullIffNoFreeCell | TicTacToe/TicTacToeServer/src/TicTacToeGame.cs:56-59 | CheckDraw holds exactly when no cell of the board is free |
| Game.Play | TicTacToe/TicTacToeServer/src/TicTacToeGame.cs:23-59 | a move is refused exactly when the cell is outside 1..9 or not all digits, and a refusal changes nothing and reports continue; an accepted move writes the symbol to that cell only; the result is win exactly when a line holds the symbol, draw exactly when there is no win and no cell is free, otherwise continue; the turn flips only on continue |
| Game.HasWinGeometric | TicTacToe/TicTacToeServer/src/TicTacToeGame.cs:41-46 | the eight combinations are exactly the three rows, the three columns and the two diagonals of the 3x3 grid |
| Game.CompletingCombinationWins | TicTacToe/TicTacToeServer/src/TicTacToeGame.cs:28-31 | filling the last free cell of a line whose other two cells hold the symbol is accepted, wins, and leaves the turn unchanged |
| Game.ClaimShrinksFreeCells | TicTacToe/TicTacToeServer/src/TicTacToeGame.cs:25-28 | for a symbol with a non-digit, an accepted move removes exactly its cell from the free cells, and a refused move removes none |
| Game.DigitSymbolLeavesCellFree | TicTacToe/TicTacToeServer/src/TicTacToeGame.cs:23-28 | an all-digit symbol, such as the empty symbol of an unappointed player, is accepted and leaves its cell free, so the same move is accepted again |
| Game.NoMoveAfterDraw | TicTacToe/TicTacToeServer/src/TicTacToeGame.cs:25-33 | after a move that draws, every further move is refused, whatever the cell or symbol |
| Game.MoveAfterWin | TicTacToe/TicTacToeServer/src/TicTacToeGame.cs:23-37 | after a winning move, a move to any free cell is still accepted, for any symbol |
| Game.CentreOpening | TicTacToe/TicTacToeServer/src/TicTacToeGame.cs:23-37 | X opening in the centre of a new game is accepted with no result yet, and O is to move |
| Game.RenderLayout | TicTacToe/TicTacToeServer/src/TicTacToeGame.cs:61-73 | the board text is the three rows of three cells, with a bar between the cells of a row, a line break between rows, and nothing after cell 9 |
| Game.Separator | TicTacToe/TicTacToeServer/src/TicTacToeGame.cs:67-70 | after cell i: a bar inside a row, a line break after the third and sixth cells, nothing after the ninth |
| Game.RenderPrefix | TicTacToe/TicTacToeServer/src/TicTacToeGame.cs:64-71 | the text after the first n cells of the loop, each followed by its separator |
| Game.Render | TicTacToe/TicTacToeServer/src/TicTacToeGame.cs:61-73 | the board text: the prefix after all nine cells, whose closed form `RenderLayout` gives |
| Game.RenderNumbered | TicTacToe/TicTacToeServer/src/TicTacToeGame.cs:61-73 | a board whose cells show their own numbers renders as the rows 1 2 3, 4 5 6 and 7 8 9, bars between cells and line breaks between rows |
| Game.InitialCellTexts | TicTacToe/TicTacToeServer/src/TicTacToeGame.cs:16-19 | cell i of a new game holds the one-character text of i |
| Game.InitialRender | TicTacToe/TicTacToeServer/src/TicTacToeGame.cs:61-73 | a new game's board is rendered as the three numbered rows |
| Game.TicTacToeGame.constructor | TicTacToe/TicTacToeServer/src/TicTacToeGame.cs:13-21 | after the loop, cell i holds the decimal text of i for each i in 1..9, and `Turn` is X |
| Game.TicTacToeGame.MakeMove | TicTacToe/TicTacToeServer/src/TicTacToeGame.cs:23-37 | the result and the new board and turn are those `Play` gives for the old game; the board keeps cells 1..9 and the turn stays X or O |
| Game.TicTacToeGame.CheckWin | TicTacToe/TicTacToeServer/src/TicTacToeGame.cs:39-54 | the loop over the combinations answers true exactly when some line holds the symbol |
| Game.TicTacToeGame.GetBoardRepresentation | TicTacToe/TicTacToeServer/src/TicTacToeGame.cs:61-73 | the text built cell by cell is the board's rendering, which `RenderLayout` spells out |
| Server.RemoveFirst | TicTacToe/TicTacToeServer/src/ServerForm.cs:226 | `List.Remove`: a missing name leaves the list unchanged, otherwise it is one entry shorter; `RemoveFirstAt` states which entry goes |
| Server.FirstIndex | TicTacToe/TicTacToeServer/src/ServerForm.cs:226 | the position of the first occurrence: it holds the name and nothing before it does |
| Server.RemoveFirstAt | TicTacToe/TicTacToeServer/src/ServerForm.cs:226 | `List.Remove` drops the first occurrence and keeps the entries before and after it, in order |
| Server.RemoveFirstDistinct | TicTacToe/TicTacToeServer/src/ServerForm.cs:226 | removing a name from a duplicate-free list keeps it duplicate-free and drops exactly that name |
| Server.Broadcast | TicTacToe/TicTacToeServer/src/ServerForm.cs:330-336 | one write per name of the enumeration, in order, each to that player's connection |
| Server.BroadcastReachesEveryone | TicTacToe/TicTacToeServer/src/ServerForm.cs:330-336 | every registered player receives a broadcast, exactly once |
| Server.OrderSize | TicTacToe/TicTacToeServer/src/ServerForm.cs:140-148 | an enumeration of the dictionary has as many entries as there are players |
| Server.ValidOpponent | TicTacToe/TicTacToeServer/src/ServerForm.cs:289-292 | what `FirstOrDefault(k => k != username)` may answer: a registered name other than the argument, or none exactly when there is no such name |
| Server.Appoint | TicTacToe/TicTacToeServer/src/ServerForm.cs:299-306 | the symbol loop keeps the set of names, the ready list, the game and the registry invariant; it keeps the earlier writes and adds exactly one per appointed player |
| Server.AppointBoth | TicTacToe/TicTacToeServer/src/ServerForm.cs:299-306 | after both rounds, the first ready player holds X and the second O, the two are distinct, both keep their connections, and `SYMBOL X` and then `SYMBOL O` have gone out |
| Server.StartGameSpec | TicTacToe/TicTacToeServer/src/ServerForm.cs:294-314 | starting a game keeps the registry invariant, the names and the ready list, installs a new game, and only appends to the outbox |
| Server.StartGameMessages | TicTacToe/TicTacToeServer/src/ServerForm.cs:294-314 | the first ready player gets X and the second O, and nobody else changes; the outbox gains the two SYMBOL messages, the new board to every player, then `YOUR_TURN` to X's holder and `OPPONENT_TURN` to O's |
| Server.EveryoneSeesNewBoard | TicTacToe/TicTacToeServer/src/ServerForm.cs:308 | every registered player is sent the new board; it is stated for any number of ready names, more generally than the program needs |
| Server.StartGameSteps | TicTacToe/TicTacToeServer/src/ServerForm.cs:294-314 | the state the method's steps leave behind is the one the start-of-game function describes |
| Server.RegisterSpec | TicTacToe/TicTacToeServer/src/ServerForm.cs:186-208 | a taken name gets "Username already taken" and nothing else changes; a new name is added with an empty symbol, appended to the ready list and sent "Connected to the server" first; with any other number of ready players nothing more happens; a new name joining a ready list of one installs a new game, and the game changes in no other case |
| Server.StartedPairIsEveryone | TicTacToe/TicTacToeServer/src/ServerForm.cs:196-208 | when a registration starts the game, the two appointed names are all the registered players |
| Server.RegisterStartsGame | TicTacToe/TicTacToeServer/src/ServerForm.cs:196-208 | a new name joining a ready list of one is exactly the registration followed by StartGame: the waiting player gets X, the newcomer O |
| Server.RegisterAlice | TicTacToe/TicTacToeServer/src/ServerForm.cs:186-208 | the first name on an idle server is accepted and waits |
| Server.RegisterBob | TicTacToe/TicTacToeServer/src/ServerForm.cs:205-208 | the second name starts the game |
| Server.StartAliceAndBob | TicTacToe/TicTacToeServer/src/ServerForm.cs:294-314 | with alice then bob ready, alice gets X and bob O, and the eight writes go out in the stated order |
| Server.AliceAndBobStart | TicTacToe/TicTacToeServer/src/ServerForm.cs:186-208 | two registrations on an idle server yield the started session |
| Server.DecodeMove | TicTacToe/TicTacToeServer/src/ServerForm.cs:235-237 | a message is a move exactly when it starts with "MOVE" and its text from the sixth character on parses as an int, and the cell is that int; exactly the bare "MOVE" is malformed |
| Server.DecodeMoveToken | TicTacToe/TicTacToeServer/src/ServerForm.cs:235-237 | "MOVE n" decodes to cell n |
| Server.AnnounceSpec | TicTacToe/TicTacToeServer/src/ServerForm.cs:248-278 | after an accepted move, players, the ready list and the game are unchanged and writes are only appended; the step throws exactly when there is no opponent and the result is a win or a continue |
| Server.MoveSpec | TicTacToe/TicTacToeServer/src/ServerForm.cs:239-284 | the game becomes what `Play` gives with the mover's stored symbol; the first new write goes to the mover and is `VALID_MOVE` or `INVALID_MOVE` as the move was accepted or not; players and the ready list are unchanged |
| Server.ProcessSpec | TicTacToe/TicTacToeServer/src/ServerForm.cs:233-287 | a message that is not a move changes nothing, and only the bare "MOVE" throws; a move from an unknown name or with no game throws and changes nothing; players and the ready list never change; the game changes only on a move by a registered player |
| Server.RemoveSpec | TicTacToe/TicTacToeServer/src/ServerForm.cs:219-230 | an empty name changes nothing; a non-empty name loses its entry and its first ready-list place, the rest keeping their order; every other entry, the game and the outbox are unchanged; the registry invariant holds |
| Server.ReceiveSpec | TicTacToe/TicTacToeServer/src/ServerForm.cs:210-230 | one message and then, if it threw, the catch block, keep the registry invariant |
| Server.StopSpec | TicTacToe/TicTacToeServer/src/ServerForm.cs:135-151 | the earlier writes are kept; the new writes are all "Disconnect", there are as many as registered players, and every registered player's connection is among them; then both collections are empty, and the game is kept |
| Server.NoBoardAfterMove | TicTacToe/TicTacToeServer/src/ServerForm.cs:242-284 | no write made while handling a client message is a `BOARD` message |
| Server.RefusedMoveReply | TicTacToe/TicTacToeServer/src/ServerForm.cs:280-284 | a refused move sends `INVALID_MOVE` to the mover alone and leaves the game unchanged |
| Server.AcceptedMoveReplies | TicTacToe/TicTacToeServer/src/ServerForm.cs:242-262 | an accepted move sends `VALID_MOVE` to the mover first; a win sends `WIN` to the mover and `LOSS` to the opponent, and with no opponent throws after `VALID_MOVE` and `WIN`; a draw sends `DRAW` to every player |
| Server.AcceptedContinueReplies | TicTacToe/TicTacToeServer/src/ServerForm.cs:263-278 | for any mover's symbol, a continuing move sends `VALID_MOVE`, then `YOUR_TURN` to the mover exactly when the game's new turn equals the mover's symbol and `OPPONENT_TURN` otherwise, then the other notice to the opponent; with no opponent it throws after the mover's notice |
| Server.InTurnMoveHandsOver | TicTacToe/TicTacToeServer/src/ServerForm.cs:263-278 | a continuing move by the player holding the turn tells the mover `OPPONENT_TURN` and the opponent `YOUR_TURN` |
| Server.OutOfTurnMoveKeepsTurn | TicTacToe/TicTacToeServer/src/ServerForm.cs:263-278 | a continuing move by the player not holding the turn is accepted, the turn becomes the mover's own symbol, and the mover is told `YOUR_TURN` again |
| Server.MoveBeforeGameDropsPlayer | TicTacToe/TicTacToeServer/src/ServerForm.cs:235-240 | a move, or the bare "MOVE", before any game exists throws, and the player is dropped with nothing sent |
| Server.AliceOpensCentre | TicTacToe/TicTacToeServer/src/ServerForm.cs:233-287 | in the started session, alice's "MOVE 5" is acknowledged, alice is told `OPPONENT_TURN` and bob `YOUR_TURN`, and the centre holds X |
| Server.ServerForm.constructor | TicTacToe/TicTacToeServer/src/ServerForm.cs:23-28 | no players, nobody ready, no game, nothing sent |
| Server.ServerForm.SendMessage | TicTacToe/TicTacToeServer/src/ServerForm.cs:316-328 | exactly one write to that connection is appended, since a failed write is swallowed |
| Server.ServerForm.BroadcastMessage | TicTacToe/TicTacToeServer/src/ServerForm.cs:330-336 | the loop over the players appends the broadcast in one enumeration order of the dictionary |
| Server.ServerForm.BroadcastBoard | TicTacToe/TicTacToeServer/src/ServerForm.cs:338-345 | `BOARD` and the current board's text go to every player |
| Server.ServerForm.GetOpponentUsername | TicTacToe/TicTacToeServer/src/ServerForm.cs:289-292 | the answer is a registered name other than the argument, or none exactly when there is no such name |
| Server.ServerForm.AppointSymbols | TicTacToe/TicTacToeServer/src/ServerForm.cs:299-306 | the loop leaves X with the first ready player and O with the second, and sends the two SYMBOL messages |
| Server.ServerForm.StartGame | TicTacToe/TicTacToeServer/src/ServerForm.cs:294-314 | a fresh game object, and the new state is the start-of-game function of the old one |
| Server.ServerForm.Register | TicTacToe/TicTacToeServer/src/ServerForm.cs:186-208 | the name is accepted exactly when it was not taken, and the new state is the registration function of the old one |
| Server.ServerForm.Announce | TicTacToe/TicTacToeServer/src/ServerForm.cs:248-278 | the writes and the throw after an accepted move are those of `AnnounceSpec` |
| Server.ServerForm.ApplyMove | TicTacToe/TicTacToeServer/src/ServerForm.cs:239-284 | the move's effect on the game and the outbox is that of `MoveSpec` |
| Server.ServerForm.ProcessClientMessage | TicTacToe/TicTacToeServer/src/ServerForm.cs:233-287 | the new state, and whether it throws, are those of `ProcessSpec` for the opponent and the enumeration order the dictionary gives |
| Server.ServerForm.RemovePlayer | TicTacToe/TicTacToeServer/src/ServerForm.cs:221-229 | the new state is that of `RemoveSpec`, and the registry invariant is kept |
| Server.ServerForm.HandleMessage | TicTacToe/TicTacToeServer/src/ServerForm.cs:210-230 | the new state is that of `ReceiveSpec` |
| Server.ServerForm.StopServer | TicTacToe/TicTacToeServer/src/ServerForm.cs:135-158 | the new state is that of `StopSpec` |
| Client.SplitMessage | TicTacToe/TicTacToeClient/src/ClientForm.cs:251-253 | the command holds no space; with a space in the message, command, space and content rebuild it; without one, the whole message is the command and the content is "" |
| Client.SplitJoin | TicTacToe/TicTacToeClient/src/ClientForm.cs:251-253 | a space-free command, a space and any content split back into that command and that content |
| Client.ValidateInputs | TicTacToe/TicTacToeClient/src/ClientForm.cs:184-201 | the inputs are accepted exactly when IP and name are not blank and the port parses as an int |
| Client.ParsedPortNotBlank | TicTacToe/TicTacToeClient/src/ClientForm.cs:186-196 | a port that parses is never blank, so the blank check on the port is subsumed by the parse |
| Client.MoveCell | TicTacToe/TicTacToeClient/src/ClientForm.cs:347 | a cell is read exactly when the text parses to an int from 1 to 9, and it is that int |
| Client.DisconnectSpec | TicTacToe/TicTacToeClient/src/ClientForm.cs:365-384 | afterwards the client is not connected; "Disconnect" is written only if it was connected; nothing else changes |
| Client.DisconnectTwice | TicTacToe/TicTacToeClient/src/ClientForm.cs:365-384 | a second Disconnect writes nothing and changes nothing |
| Client.ConsumeSpec | TicTacToe/TicTacToeClient/src/ClientForm.cs:249-309 | a server message can only disconnect the client and write "Disconnect", never connect it; only `SYMBOL` changes the symbol; only the five turn and result commands change the move controls |
| Client.OtherCommandIgnored | TicTacToe/TicTacToeClient/src/ClientForm.cs:262-278 | `BOARD`, `MESSAGE`, `VALID_MOVE`, `INVALID_MOVE` and unknown commands change none of the client's state |
| Client.SymbolMessage | TicTacToe/TicTacToeClient/src/ClientForm.cs:257-260 | `SYMBOL s` sets the symbol to s and changes nothing else |
| Client.BoardMessage | TicTacToe/TicTacToeClient/src/ClientForm.cs:262-264 | `BOARD` changes none of the client's state |
| Client.YourTurnMessage | TicTacToe/TicTacToeClient/src/ClientForm.cs:280-283 | `YOUR_TURN` enables the move controls exactly when connected |
| Client.WaitMessage | TicTacToe/TicTacToeClient/src/ClientForm.cs:285-303 | `OPPONENT_TURN`, `WIN`, `LOSS` and `DRAW` each disable the move controls and change nothing else |
| Client.ServerDisconnect | TicTacToe/TicTacToeClient/src/ClientForm.cs:305-307 | the server's "Disconnect" disconnects the client as its own Disconnect does |
| Client.SendMoveSpec | TicTacToe/TicTacToeClient/src/ClientForm.cs:345-363 | a move is written exactly when connected and the text is a cell from 1 to 9, and it is "MOVE" with that cell; nothing else changes |
| Client.ConnectSpec | TicTacToe/TicTacToeClient/src/ClientForm.cs:145-182 | the client becomes connected exactly when the inputs are valid and the reply is exactly "Connected to the server"; the name is written exactly when the inputs are valid and a connection was made |
| Client.NameTakenRefused | TicTacToe/TicTacToeClient/src/ClientForm.cs:163-168 | the reply "Username already taken" does not connect the client |
| Client.ClientForm.constructor | TicTacToe/TicTacToeClient/src/ClientForm.cs:23-27 | no symbol, not connected, move controls off, nothing written |
| Client.ClientForm.EnableMoveControls | TicTacToe/TicTacToeClient/src/ClientForm.cs:322-332 | the move controls are on exactly when asked and connected |
| Client.ClientForm.Disconnect | TicTacToe/TicTacToeClient/src/ClientForm.cs:365-384 | the new state is that of `DisconnectSpec` |
| Client.ClientForm.ProcessServerMessage | TicTacToe/TicTacToeClient/src/ClientForm.cs:249-309 | the new state is that of `ConsumeSpec` |
| Client.ClientForm.SendMove | TicTacToe/TicTacToeClient/src/ClientForm.cs:345-363 | the new state is that of `SendMoveSpec` |
| Client.ClientForm.Connect | TicTacToe/TicTacToeClient/src/ClientForm.cs:145-182 | the new state is that of `ConnectSpec` |
| Protocol.MoveRoundTrip | TicTacToe/TicTacToeClient/src/ClientForm.cs:345-363 | every move a client writes is decoded by the server as the cell that was typed, which is in 1..9 |
| Protocol.FirstPlayerStarts | TicTacToe/TicTacToeServer/src/ServerForm.cs:304-311 | a connected client reading `SYMBOL X`, the new board and `YOUR_TURN` holds X with its move controls on |
| Protocol.SecondPlayerWaits | TicTacToe/TicTacToeServer/src/ServerForm.cs:304-312 | a client reading `SYMBOL O`, the new board and `OPPONENT_TURN` holds O with its move controls off |

## Left out

- The WinForms layer is not modelled: the window construction, `Invoke` marshalling, `AppendToLog`, message boxes, and the text-box-only `UpdateBoard` in both forms. Neither window's contents affect the protocol.
- TCP is not modelled: listening, connecting, stream reads and writes, ASCII encoding, and the unframed 1024-byte reads. A read is one whole message, and a write is one outbox entry or one entry of the client's `sent` list. Bytes outside ASCII, which the encoder would turn into `?`, are not modelled.
- Threads are not modelled: the accept loop, `lock (players)`, and the name check that runs outside the lock. Each handler step is atomic, so the race between two registrations of one name is not captured.
- `StartServer` and `isListening` are not modelled. The port field and the listener's life cycle are I/O.
- `StopServer` closing each connection, and the client's closing of its stream, are not modelled. Closed connections are not represented.
- A clean end of stream on a player's connection leaves the loop and changes no state. No member models it.
- The client's `ReceiveMessages` loop and its "Connection lost" path are not modelled. Only the handling of each message is.
- Text.ParseInt: culture-specific signs, and the leading and trailing white space that `int.TryParse` allows, are not accepted. Its contract pins the value only for plain digit strings, which are all the protocol produces.
- Text.IsDigit and Text.IsWhiteSpace follow `char.IsDigit` and `char.IsWhiteSpace` on the ASCII and Latin-1 range only. Other Unicode decimal digits and spaces are not modelled.
- `StartsWith` is modelled as an ordinal comparison. The culture-sensitive default of `string.StartsWith(string)` agrees with it on the protocol's ASCII tokens.
- `Environment.NewLine` is taken to be "\r\n". No property depends on its characters.
- Client.ConnectSpec: a failure after the name has been written is represented only by a reply other than the acceptance text. The connection error and the connection object are not modelled.
- The client's move-controls flag stands for the move button, which starts disabled. The move text box starts enabled, and the two agree only after the first `EnableMoveControls`. The text box is not modelled.
- `ClearMoveInput` is not modelled. It only clears a text box.
- Client Disconnect leaves the move-controls flag as it was, as the code does. Nothing re-disables the move button on disconnect, but `SendMove` writes nothing while the client is disconnected.
- Server.ReceiveSpec: its own contract states only the registry invariant. The effect of each kind of message is stated by the lemmas about `ProcessSpec` and `RemoveSpec`.
