/** The values exchanged between clients and the server: players, stroke
    segments and the tagged messages of the wire protocol. JSON encoding is
    not modelled; a message is its decoded tag and payload. */
module Wire {
  import opened Common

  /** A player as the server stores it and as clients list it. The server's
      record also holds the player's socket; here a player's socket is
      identified by the player's id. */
  datatype Player = Player(id: string, name: string, score: int)

  /** One line segment of a stroke: the payload of `draw` and `drawing_data`. */
  datatype Segment = Segment(x0: int, y0: int, x1: int, y1: int, color: string, thickness: int)

  datatype Status = Waiting | Drawing

  /** What `get_game_state_for_player` returns: the server's state as seen by
      one player, with the secret word masked for everyone but the drawer. */
  datatype Snapshot = Snapshot(
    players: seq<Player>,
    gameStatus: Status,
    currentWord: string,
    currentDrawerId: Option<string>,
    roundStartTime: Option<int>,
    roundDuration: int)

  /** Messages a client sends. `OtherCommand` is any tag the server has no
      branch for. */
  datatype ClientMsg =
    | StartGame
    | Guess(message: string)
    | Draw(segment: Segment)
    | Clear
    | OtherCommand(tag: string)

  /** Messages the server sends. */
  datatype ServerMsg =
    | GameStateMsg(state: Snapshot)
    | PlayerJoin(player: Player)
    | PlayerLeave(playerId: string)
    | WordToDraw(word: string)
    | RoundStart(drawerId: string, wordHint: string)
    | DrawingData(payload: Segment)
    | CorrectGuess(playerId: string, playerName: string)
    | ChatMessage(playerId: string, playerName: string, message: string)

  /** One `send_json` call of the server: the recipient's id and the message. */
  datatype Delivery = Delivery(to: string, msg: ServerMsg)

  /** The messages of a delivery log that reach one recipient, in order. */
  function ReceivedBy(log: seq<Delivery>, id: string): (r: seq<ServerMsg>)
    ensures |r| <= |log|
  {
    if log == [] then []
    else (if log[0].to == id then [log[0].msg] else []) + ReceivedBy(log[1..], id)
  }

  lemma {:induction false} ReceivedByAppend(a: seq<Delivery>, b: seq<Delivery>, id: string)
    ensures ReceivedBy(a + b, id) == ReceivedBy(a, id) + ReceivedBy(b, id)
  {
    if a != [] {
      assert (a + b)[1..] == a[1..] + b;
      ReceivedByAppend(a[1..], b, id);
    } else {
      assert a + b == b;
    }
  }

  /** The game state as the client's `GameState` interface describes it. */
  datatype ClientView = ClientView(
    players: seq<Player>,
    currentDrawerId: Option<string>,
    wordToGuess: string,
    roundStartTime: Option<int>)

  /** The payload of `chat_message` (with the text) and of `correct_guess`
      (without it), as the client stores it in its message list. */
  datatype ChatPayload = ChatPayload(playerId: string, playerName: string, message: Option<string>)

  /** Messages as a client's handlers see them after decoding. `Draw`,
      `DrawingData` and `Clear` are read by the canvas handler; the rest by the
      session handler; `Unrecognized` is any other tag. */
  datatype ClientInbound =
    | InGameState(view: ClientView)
    | InPlayerJoin(player: Player)
    | InPlayerLeave(playerId: string)
    | InRoundStart(drawerId: string, wordHint: string)
    | InWordToDraw(word: string)
    | InChatMessage(chat: ChatPayload)
    | InCorrectGuess(chat: ChatPayload)
    | InDraw(segment: Segment)
    | InDrawingData(segment: Segment)
    | InClear
    | Unrecognized(tag: string)
}
