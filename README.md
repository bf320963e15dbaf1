# Pictionary game session — a Dafny model

This project models the game-session logic of a two-part drawing-and-guessing
game. A FastAPI server keeps the player table and the round. React clients
fold server messages into their local view and exchange stroke segments over
one websocket per player.

Modules, one per source file, plus shared types:

- `Common` (`common.dfy`): `Option`, ASCII lower-casing, whitespace trimming.
- `Wire` (`wire.dfy`): players, segments, snapshots and the tagged messages in
  both directions. A server send is a `Delivery(to, msg)`. `ReceivedBy(log, id)`
  is the inbox of one recipient.
- `ServerState` (`server_state.dfy`, `backend/game_state.py`): the class
  `GameStateManager`. The Python dict is modelled as a map plus the sequence
  of its keys in insertion order, because dict order decides broadcast order
  and snapshot order. Its invariant `Valid()` says that the key sequence has
  no repeats, that it lists exactly the keys of the map, and that each
  record's id is its key. It also says that the status is `Drawing` exactly
  when a word and a drawer are set, and that the word comes from the word list.
- `ServerEndpoint` (`server_endpoint.dfy`, `backend/main.py`): the websocket
  handler as the class `Endpoint`. It owns one manager and an ordered log of
  every message sent. For each case there is a routing function that says
  which messages go to which recipients. Lemmas give each player's exact
  inbox. Each handler method is proved to append exactly that function's
  deliveries.
- `ClientSocket` (`client_socket.dfy`): a socket is an `open` flag plus an
  outbox. `SendIfOpen` is the guarded send both components use.
- `ClientGame` (`client_game.dfy`, `frontend/src/components/Game.tsx`): the
  `onmessage` switch as a pure `Step` over the three state cells, built
  from the per-case updaters. Lemmas cover each case and a whole stream of
  joins and leaves. The class `Game` holds the state cells and the join,
  start and guess handlers.
- `ClientCanvas` (`client_canvas.dfy`, `frontend/src/components/DrawingCanvas.tsx`):
  the class `DrawingCanvas`. It holds `isDrawing`, the selected colour and
  thickness, the part of the 2D context the handlers use (stroke style,
  current path, current point), and the surface as the sequence of painted
  segments. `canDraw` is a parameter of each handler.

Behaviour of the code that is worth knowing:

- `player_join` appends without a duplicate check. It is not idempotent.
  The newcomer's snapshot already lists them (`JoinSnapshotListsNewcomer`),
  and the `player_join` for them follows it (`JoinRecipients`). So the
  newcomer appears twice in their own player list
  (`ClientGame.NewcomerListedTwice`).
- The client's `round_start` case sets only the drawer and the hint and
  clears the word to draw. It does not clear the chat, and the client has no
  round phase.
- The server has no branch for `clear`. A client's `clear` is read and
  dropped, and is never relayed to other players (`Endpoint.HandleMessage`).
- `round_start` is sent to every player except the drawer. The drawer gets
  only `word_to_draw`.
- `correct_guess` carries no score. The client appends it to the chat list
  like a chat line.
- The server's snapshot names the masked word `current_word`, but the
  client's `GameState` reads `word_to_guess`. The JSON layer is not modelled,
  so the client's `game_state` payload is taken in the client's own shape.
- The client's drawing gate is advisory. The server relays every `draw` and
  accepts a guess from anyone, checking only the drawer and the status.

## Model

| member | source | states |
|---|---|---|
| `Common.TrimEmptyIffBlank` | frontend/src/components/Game.tsx:92 | A string trims to empty exactly when every character is whitespace, so the non-blank tests of join and guess are "some non-space character" |
| `ServerState.ExcludingMembers` | backend/game_state.py:46-49 | The broadcast recipients are exactly the players whose id differs from the excluded id |
| `ServerState.ExcludingNone` | backend/game_state.py:46-49 | With no excluded id, every player is a recipient, in table order |
| `ServerState.BroadcastReceived` | backend/game_state.py:46-49 | Each non-excluded player receives the broadcast message exactly once; the excluded player and unknown ids receive nothing |
| `ServerState.Masked` | backend/game_state.py:87 | The masked word has one `_` per letter of the word, and is empty when there is no word |
| `ServerState.GameStateManager.constructor` | backend/game_state.py:19-32 | A new manager has no players, status waiting, and no word, drawer or start time |
| `ServerState.GameStateManager.AddPlayer` | backend/game_state.py:39-40 | The id maps to a record with the given name and score 0, replacing any earlier record. A new id goes last in table order and an existing id keeps its place. Other entries and the round fields are unchanged |
| `ServerState.GameStateManager.RemovePlayer` | backend/game_state.py:42-44 | The id is removed from the table if present, a no-op otherwise; no other player and no round field changes |
| `ServerState.GameStateManager.Broadcast` | backend/game_state.py:46-49 | Returns one delivery of the message to each player in table order, skipping the excluded id |
| `ServerState.GameStateManager.StartRound` | backend/game_state.py:51-65 | With at most one player: returns None and changes nothing. Otherwise: the word comes from the word list, the drawer is a present player, the status becomes drawing, the start time is recorded, and the result carries that drawer and word. The table is unchanged either way |
| `ServerState.GuessIgnoresCase` | backend/game_state.py:67-68 | A guess scores exactly when its lower-cased form does. Every listed word is already lower case, so during a round a guess from anyone but the drawer scores exactly when it lower-cases to the word |
| `ServerState.GameStateManager.ReceiveGuess` | backend/game_state.py:67-74 | Returns true exactly when the round is drawing, the guesser is not the drawer, and the lower-cased guess equals the lower-cased word. Exactly then the guesser's score rises by 10; otherwise nothing changes |
| `ServerState.GameStateManager.SnapshotFor` | backend/game_state.py:83-88 | The snapshot lists one record per player in table order. The drawer sees the real word. Everyone else sees one `_` per letter, or an empty string when there is no word. The round fields are copied |
| `ServerEndpoint.WordHintShape` | backend/main.py:69 | The hint for an n-letter word (n >= 1) has length 2n-1, with `_` at even positions and a space at odd positions; the empty word's hint is empty |
| `ServerEndpoint.StartGameRecipients` | backend/main.py:57-76 | After a successful start, the drawer's inbox is exactly `word_to_draw` with the word. Every other player's inbox is exactly `round_start` with the drawer id and the hint. Nobody else receives anything |
| `ServerEndpoint.StartGameWordOnlyToDrawer` | backend/main.py:63-66 | No delivery other than the drawer's carries the secret word; everything sent to others is the round start with the hint |
| `ServerEndpoint.DrawRecipients` | backend/main.py:79-81 | A `draw` reaches every player except the sender once, as `drawing_data` with the identical payload (`receive_drawing_data`, backend/game_state.py:76-81) |
| `ServerEndpoint.GuessReply` | backend/main.py:83-104 | A correct guess becomes `correct_guess`, which has only the guesser's id and name. A wrong guess becomes `chat_message` with the text. Both name the guesser |
| `ServerEndpoint.GuessRecipients` | backend/main.py:87-104 | The reply to a guess reaches every player once, the guesser included |
| `ServerEndpoint.JoinRecipients` | backend/main.py:40-51 | On connect, the newcomer first receives the snapshot and then `player_join` with score 0. Every other player receives only `player_join` |
| `ServerEndpoint.JoinSnapshotListsNewcomer` | backend/main.py:36-41 | Because the player is added before anything is sent, the newcomer's snapshot already lists them with score 0 |
| `ServerEndpoint.LeaveRecipients` | backend/main.py:106-111 | On disconnect, `player_leave` with the id reaches each remaining player once and does not reach the player who left |
| `ServerEndpoint.Endpoint.constructor` | backend/main.py:27 | The server starts with an empty manager and nothing sent |
| `ServerEndpoint.Endpoint.Connect` | backend/main.py:35-51 | The player is added, then the log grows by exactly the join deliveries computed from the new table and the newcomer's snapshot |
| `ServerEndpoint.Endpoint.HandleStartGame` | backend/main.py:57-76 | With at most one player, nothing is sent and nothing changes. Otherwise the round is started and the log grows by exactly the start-game deliveries for the chosen drawer and word |
| `ServerEndpoint.Endpoint.HandleDraw` | backend/main.py:79-81 | The log grows by exactly the draw deliveries; the manager is unchanged |
| `ServerEndpoint.Endpoint.HandleGuess` | backend/main.py:83-104 | The score changes as `receive_guess` says, and the table order and the round fields are unchanged. The log grows by the reply for that outcome, addressed to every player |
| `ServerEndpoint.Endpoint.HandleMessage` | backend/main.py:53-104 | `start_game`, `draw` and `guess` each have the full manager update and log growth of `HandleStartGame`, `HandleDraw` and `HandleGuess`: the round state and unchanged table of a start, an unchanged manager for a draw, and the score update or unchanged manager of a guess. `clear` and unknown tags send nothing and change nothing |
| `ServerEndpoint.Endpoint.Disconnect` | backend/main.py:106-111 | The player is removed first, leaving the round fields as they were, then `player_leave` goes to the remaining players |
| `ClientSocket.SendIfOpen` | frontend/src/components/Game.tsx:99-101 | A message is appended to the outbox only when the socket is open; otherwise it is dropped, not queued |
| `ClientGame.StepGameState` | frontend/src/components/Game.tsx:52-53 | `game_state` replaces the whole game state with the payload, whatever it was before; applying the same snapshot twice is the same as once |
| `ClientGame.StepJoin` | frontend/src/components/Game.tsx:55-59 | `player_join` puts the payload last and keeps earlier players in order. There is no duplicate check, so the payload occurs once more than before. Nothing else changes |
| `ClientGame.StepLeave` | frontend/src/components/Game.tsx:61-65 | `player_leave` removes every player with that id and keeps the rest in order (the filter distributes over concatenation). An absent id is a no-op. Only the player list changes |
| `ClientGame.NewcomerListedTwice` | frontend/src/components/Game.tsx:52-59 | A snapshot that lists a player, followed by a `player_join` for that player, leaves the snapshot's list plus the player again, so the player appears at least twice |
| `ClientGame.StepRoundStart` | frontend/src/components/Game.tsx:67-73 | `round_start` sets the drawer and the hint, clears the word to draw, and keeps the players, the start time and the chat |
| `ClientGame.StepWordToDraw` | frontend/src/components/Game.tsx:75-76 | `word_to_draw` sets the word to draw and nothing else |
| `ClientGame.StepChat` | frontend/src/components/Game.tsx:78-80 | `chat_message` and `correct_guess` append the payload, so the messages grow by one. The game state and the word are unchanged |
| `ClientGame.StepUnhandled` | frontend/src/components/Game.tsx:51-82 | Any tag without a case in the switch changes no state cell |
| `ClientGame.FoldPlayers` | frontend/src/components/Game.tsx:55-65 | After any stream without a snapshot, the list is two parts. First come the earlier players that no later leave removes, in their old order. Then come the joined players that no later leave removes, in join order |
| `ClientGame.JoinLeaveStream` | frontend/src/components/Game.tsx:55-65 | Starting from an empty list, the players are exactly the joined players not later left, in join order |
| `ClientGame.Game.constructor` | frontend/src/components/Game.tsx:19-32 | The initial state cells: no name, not joined, empty game state, no word, no messages, no guess, no socket |
| `ClientGame.Game.Connect` | frontend/src/components/Game.tsx:34-37 | A socket is bound only once joined with a non-empty name |
| `ClientGame.Game.OnMessage` | frontend/src/components/Game.tsx:47-83 | The state cells after a message are the switch's `Step` applied to the cells before it |
| `ClientGame.Game.HandleJoin` | frontend/src/components/Game.tsx:91-96 | A non-blank name is stored as typed and the session becomes joined; a blank name changes nothing |
| `ClientGame.Game.HandleStartGame` | frontend/src/components/Game.tsx:98-102 | `start_game` is sent only on an open socket |
| `ClientGame.Game.SetGuess` | frontend/src/components/Game.tsx:172 | The guess input holds the typed text |
| `ClientGame.Game.HandleSendGuess` | frontend/src/components/Game.tsx:104-112 | With a non-blank guess and an open socket, `guess` with the untrimmed text is sent and the input is cleared; otherwise nothing is sent and the input is kept |
| `ClientCanvas.SegmentGeometry` | frontend/src/components/DrawingCanvas.tsx:86-125 | The pointer-down segment has length zero at the pointer offset. A move segment ends at the offset and starts one movement back. Both carry the selected colour and thickness |
| `ClientCanvas.CaptureChain` | frontend/src/components/DrawingCanvas.tsx:74-127 | One press and N moves give N+1 segments. When each movement matches the offset step, consecutive segments join end to start |
| `ClientCanvas.DrawingCanvas.PressAndDrag` | frontend/src/components/DrawingCanvas.tsx:74-127 | On an open socket with a context and drawing allowed, `startDrawing` followed by one `draw` per move sends exactly the captured segments in order: the dot, then one move segment per event. The stroke is still in progress afterwards |
| `ClientCanvas.DrawingCanvas.constructor` | frontend/src/components/DrawingCanvas.tsx:8-12 | Not drawing, colour `#000000`, thickness 5, a fresh context, an empty surface |
| `ClientCanvas.DrawingCanvas.SetColor` | frontend/src/components/DrawingCanvas.tsx:182 | The selected colour becomes the chosen one |
| `ClientCanvas.DrawingCanvas.SetThickness` | frontend/src/components/DrawingCanvas.tsx:210 | The selected thickness becomes the chosen one |
| `ClientCanvas.DrawingCanvas.StartDrawing` | frontend/src/components/DrawingCanvas.tsx:74-99 | When drawing is not allowed or there is no context, nothing changes and nothing is sent. Otherwise a stroke starts at the pointer in the selected style, and the zero-length segment is sent if the socket is open |
| `ClientCanvas.DrawingCanvas.Draw` | frontend/src/components/DrawingCanvas.tsx:101-127 | A no-op unless a stroke is in progress, drawing is allowed and there is a context. Then the path gets a line from the current point to the pointer, the path is stroked onto the surface, and the move segment is sent if the socket is open |
| `ClientCanvas.DrawingCanvas.StopDrawing` | frontend/src/components/DrawingCanvas.tsx:129-135 | With a context, closes the path and ends the stroke; without one nothing changes. The socket is not touched |
| `ClientCanvas.DrawingCanvas.ClearCanvasLocal` | frontend/src/components/DrawingCanvas.tsx:137-143 | Wipes the surface when there is a context |
| `ClientCanvas.DrawingCanvas.ClearCanvas` | frontend/src/components/DrawingCanvas.tsx:145-151 | When drawing is not allowed, nothing changes. Otherwise the surface is wiped and `clear`, with no payload, is sent if the socket is open |
| `ClientCanvas.DrawingCanvas.OnMessage` | frontend/src/components/DrawingCanvas.tsx:52-71 | An inbound `draw` or `drawing_data` paints exactly its own segment, in the payload's colour and thickness. The context is left with the payload's style, a path holding that segment plus its closing line, and the current point back at the segment's start. A local `draw` during a stroke therefore continues from there in the remote style. `clear` wipes the surface. Other tags change nothing |

## Left out

- The JSON encoding, WebSocket accept/connect/close, the receive loop's
  transport, CORS and the root HTTP route are not modelled. A message is its
  decoded value, and a socket is an open flag plus an outbox whose open state
  the model never changes. The `onopen`/`onclose` logging and the effect's
  close-on-cleanup are left out.
- `uuid.uuid4()` is a player-id parameter of `Endpoint.Connect`.
  `random.choice` is a nondeterministic choice from the word list and from
  the player records. The event-loop clock is a `now` parameter.
- The player record's socket is identified by the player's id, so snapshot
  records have no socket field by construction.
- The snapshot's `chat_history` field is left out. The source never writes
  it, so it is always an empty list.
- `str.lower`, `String.trim` and `str.strip` are modelled on ASCII only: A–Z
  folding, and the ASCII whitespace that both `trim` and `strip` remove (`\t`
  to `\r` and space). Python's `strip` also removes `\x1c` to `\x1f`. The
  only `strip` input is `"_ "` repeated, so this makes no difference.
- Mouse coordinates and thickness are integers. JavaScript numbers are
  floating point.
- Concurrency: the server runs one handler per connection, interleaved at
  each `await`, and each handler call is modelled as atomic. React state
  updates are also taken to be applied before the next event is handled.
- DrawingCanvas assigns its own `onmessage` over Game's handler, and Game
  never passes `canDraw`. The two handlers are modelled separately, and
  `canDraw` is an argument.
- Canvas painting: each `stroke` repaints every line of the current path, and
  `closePath` adds the closing line of a subpath that has lines. Line caps
  and joins, pixels, and the canvas size are not modelled.
- Rendering is not modelled: the JSX, the lookups of the local player and the
  drawer used only for display (Game.tsx:118-119), the palette and brush
  controls. frontend/src/components/JoinGame.tsx is not part of this model;
  its only logic is the trim test that `Game.HandleJoin` already has.
- Timers, round end, game over and score maps are not modelled. No code in
  these files produces or consumes them.
- ServerState.GameStateManager.ReceiveGuess: requires that a scoring guesser is in the table. In the source a scoring guess from an unknown id raises `KeyError` on the score update. The endpoint only passes ids of connected players.
- ServerEndpoint.Endpoint.HandleGuess: requires the sender to be in the table. In the source the name lookup raises `KeyError` otherwise. A connection's id is added on connect and removed only on its own disconnect.
- ServerEndpoint.Endpoint.HandleMessage: has the same precondition for `guess`, for the same reason.
