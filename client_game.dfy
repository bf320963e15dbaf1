/** The client's game session (`frontend/src/components/Game.tsx`): the
    message handler that folds each server message into the game state, the
    word to draw and the chat list, and the join, start and guess handlers. */
module ClientGame {
  import opened Common
  import opened Wire
  import opened ClientSocket

  /** The three state cells the message handler updates. */
  datatype Session = Session(gameState: ClientView, wordToDraw: string, messages: seq<ChatPayload>)

  const InitialView: ClientView := ClientView([], None, "", None)

  // The updaters passed to `setGameState`, each a function of the previous state.

  function WithJoined(prev: ClientView, p: Player): ClientView {
    prev.(players := prev.players + [p])
  }

  /** `players.filter(p => p.id !== id)`. */
  function WithoutPlayer(players: seq<Player>, id: string): (r: seq<Player>)
    ensures |r| <= |players|
  {
    if players == [] then []
    else (if players[0].id != id then [players[0]] else []) + WithoutPlayer(players[1..], id)
  }

  function WithLeft(prev: ClientView, id: string): ClientView {
    prev.(players := WithoutPlayer(prev.players, id))
  }

  function WithRound(prev: ClientView, drawerId: string, hint: string): ClientView {
    prev.(currentDrawerId := Some(drawerId), wordToGuess := hint)
  }

  /** The `switch` of the message handler; a tag without a case changes
      nothing. */
  function Step(s: Session, m: ClientInbound): Session {
    match m
    case InGameState(v) => s.(gameState := v)
    case InPlayerJoin(p) => s.(gameState := WithJoined(s.gameState, p))
    case InPlayerLeave(id) => s.(gameState := WithLeft(s.gameState, id))
    case InRoundStart(d, h) => s.(gameState := WithRound(s.gameState, d, h), wordToDraw := "")
    case InWordToDraw(w) => s.(wordToDraw := w)
    case InChatMessage(c) => s.(messages := s.messages + [c])
    case InCorrectGuess(c) => s.(messages := s.messages + [c])
    case _ => s
  }

  /** Messages folded in delivery order. */
  function Fold(s: Session, ms: seq<ClientInbound>): Session
    decreases |ms|
  {
    if ms == [] then s else Fold(Step(s, ms[0]), ms[1..])
  }

  // ---- leaving: the filter ----

  lemma {:induction false} WithoutPlayerMembers(players: seq<Player>, id: string)
    ensures forall q :: q in WithoutPlayer(players, id) <==> q in players && q.id != id
  {
    if players != [] {
      WithoutPlayerMembers(players[1..], id);
      assert forall q :: q in players <==> q == players[0] || q in players[1..];
    }
  }

  lemma {:induction false} WithoutPlayerAppend(a: seq<Player>, b: seq<Player>, id: string)
    ensures WithoutPlayer(a + b, id) == WithoutPlayer(a, id) + WithoutPlayer(b, id)
  {
    if a != [] {
      assert (a + b)[1..] == a[1..] + b;
      WithoutPlayerAppend(a[1..], b, id);
    } else {
      assert a + b == b;
    }
  }

  lemma {:induction false} WithoutAbsentPlayer(players: seq<Player>, id: string)
    requires forall i :: 0 <= i < |players| ==> players[i].id != id
    ensures WithoutPlayer(players, id) == players
  {
    if players != [] {
      WithoutAbsentPlayer(players[1..], id);
    }
  }

  /** `player_leave` removes every player with that id and nobody else, keeps
      the rest in order (the filter distributes over concatenation and keeps
      or drops each single player by its id), and changes nothing when the
      id is absent. Only the player list changes. */
  lemma StepLeave(s: Session, id: string)
    ensures var t := Step(s, InPlayerLeave(id));
      && (forall q :: q in t.gameState.players <==> q in s.gameState.players && q.id != id)
      && (forall a, b :: WithoutPlayer(a + b, id) == WithoutPlayer(a, id) + WithoutPlayer(b, id))
      && (forall q: Player :: WithoutPlayer([q], id) == if q.id == id then [] else [q])
      && ((forall i :: 0 <= i < |s.gameState.players| ==> s.gameState.players[i].id != id) ==> t == s)
      && t.gameState.currentDrawerId == s.gameState.currentDrawerId
      && t.gameState.wordToGuess == s.gameState.wordToGuess
      && t.gameState.roundStartTime == s.gameState.roundStartTime
      && t.wordToDraw == s.wordToDraw && t.messages == s.messages
  {
    WithoutPlayerMembers(s.gameState.players, id);
    forall a, b ensures WithoutPlayer(a + b, id) == WithoutPlayer(a, id) + WithoutPlayer(b, id) {
      WithoutPlayerAppend(a, b, id);
    }
    if forall i :: 0 <= i < |s.gameState.players| ==> s.gameState.players[i].id != id {
      WithoutAbsentPlayer(s.gameState.players, id);
    }
  }

  // ---- the other cases ----

  /** `game_state` replaces the whole game state, whatever it was, and
      applying the same snapshot again changes nothing more. */
  lemma StepGameState(s: Session, v: ClientView)
    ensures Step(s, InGameState(v)).gameState == v
    ensures Step(s, InGameState(v)).wordToDraw == s.wordToDraw
    ensures Step(s, InGameState(v)).messages == s.messages
    ensures Step(Step(s, InGameState(v)), InGameState(v)) == Step(s, InGameState(v))
  {
  }

  /** `player_join` adds the payload at the end, keeps every earlier player
      in place, and does not check for duplicates: the payload occurs once
      more than before. */
  lemma StepJoin(s: Session, p: Player)
    ensures var t := Step(s, InPlayerJoin(p));
      && |t.gameState.players| == |s.gameState.players| + 1
      && t.gameState.players[..|s.gameState.players|] == s.gameState.players
      && t.gameState.players[|s.gameState.players|] == p
      && multiset(t.gameState.players)[p] == multiset(s.gameState.players)[p] + 1
      && t.gameState.currentDrawerId == s.gameState.currentDrawerId
      && t.gameState.wordToGuess == s.gameState.wordToGuess
      && t.gameState.roundStartTime == s.gameState.roundStartTime
      && t.wordToDraw == s.wordToDraw && t.messages == s.messages
  {
    var t := Step(s, InPlayerJoin(p));
    assert t.gameState.players == s.gameState.players + [p];
  }

  /** The newcomer's own inbox is a snapshot that already lists them,
      followed by the `player_join` for them. With no duplicate check the
      newcomer then appears twice in their own player list. */
  lemma NewcomerListedTwice(s: Session, v: ClientView, p: Player)
    requires p in v.players
    ensures var t := Fold(s, [InGameState(v), InPlayerJoin(p)]);
      && t.gameState.players == v.players + [p]
      && multiset(t.gameState.players)[p] >= 2
  {
    var ms := [InGameState(v), InPlayerJoin(p)];
    var s1 := Step(s, InGameState(v));
    var s2 := Step(s1, InPlayerJoin(p));
    assert ms[1..] == [InPlayerJoin(p)];
    assert [InPlayerJoin(p)][1..] == [];
    assert Fold(s, ms) == Fold(s1, [InPlayerJoin(p)]) == Fold(s2, []) == s2;
    StepJoin(s1, p);
    assert multiset(v.players)[p] >= 1;
  }

  /** `round_start` records the drawer and the hint, clears the word to draw,
      and keeps the players, the start time and the chat. */
  lemma StepRoundStart(s: Session, drawerId: string, hint: string)
    ensures var t := Step(s, InRoundStart(drawerId, hint));
      && t.gameState.currentDrawerId == Some(drawerId)
      && t.gameState.wordToGuess == hint
      && t.gameState.players == s.gameState.players
      && t.gameState.roundStartTime == s.gameState.roundStartTime
      && t.wordToDraw == ""
      && t.messages == s.messages
  {
  }

  /** `word_to_draw` sets only the word to draw. */
  lemma StepWordToDraw(s: Session, word: string)
    ensures Step(s, InWordToDraw(word)) == s.(wordToDraw := word)
    ensures Step(s, InWordToDraw(word)).gameState == s.gameState
  {
  }

  /** A chat line and a correct guess are both appended to the messages,
      which grow by one, and leave the game state alone. */
  lemma StepChat(s: Session, m: ClientInbound)
    requires m.InChatMessage? || m.InCorrectGuess?
    ensures |Step(s, m).messages| == |s.messages| + 1
    ensures Step(s, m).messages[..|s.messages|] == s.messages
    ensures Step(s, m).messages[|s.messages|] == m.chat
    ensures Step(s, m).gameState == s.gameState && Step(s, m).wordToDraw == s.wordToDraw
  {
  }

  /** Any message the switch has no case for leaves all three cells as they
      were. */
  lemma StepUnhandled(s: Session, m: ClientInbound)
    requires m.InDraw? || m.InDrawingData? || m.InClear? || m.Unrecognized?
    ensures Step(s, m) == s
  {
  }

  // ---- a whole stream of joins and leaves ----

  /** The ids removed by some `player_leave` of `ms`. */
  function LeftIds(ms: seq<ClientInbound>): set<string> {
    if ms == [] then {}
    else (if ms[0].InPlayerLeave? then {ms[0].playerId} else {}) + LeftIds(ms[1..])
  }

  /** The joined players, in join order, whose id no later `player_leave`
      removes. */
  function JoinedNotLeft(ms: seq<ClientInbound>): seq<Player> {
    if ms == [] then []
    else (if ms[0].InPlayerJoin? && ms[0].player.id !in LeftIds(ms[1..]) then [ms[0].player] else [])
         + JoinedNotLeft(ms[1..])
  }

  /** The players whose id is not in `ids`, in order. */
  function WithoutIds(players: seq<Player>, ids: set<string>): seq<Player> {
    if players == [] then []
    else (if players[0].id !in ids then [players[0]] else []) + WithoutIds(players[1..], ids)
  }

  lemma {:induction false} WithoutIdsAppend(a: seq<Player>, b: seq<Player>, ids: set<string>)
    ensures WithoutIds(a + b, ids) == WithoutIds(a, ids) + WithoutIds(b, ids)
  {
    if a != [] {
      assert (a + b)[1..] == a[1..] + b;
      WithoutIdsAppend(a[1..], b, ids);
    } else {
      assert a + b == b;
    }
  }

  lemma {:induction false} WithoutIdsTwice(players: seq<Player>, id: string, ids: set<string>)
    ensures WithoutIds(WithoutPlayer(players, id), ids) == WithoutIds(players, {id} + ids)
  {
    if players != [] {
      WithoutIdsTwice(players[1..], id, ids);
      var head := if players[0].id != id then [players[0]] else [];
      WithoutIdsAppend(head, WithoutPlayer(players[1..], id), ids);
    }
  }

  lemma {:induction false} WithoutIdsEmpty(players: seq<Player>)
    ensures WithoutIds(players, {}) == players
  {
    if players != [] {
      WithoutIdsEmpty(players[1..]);
    }
  }

  /** Folding a stream with no snapshot in it: the players that were listed
      and are not removed later come first, in their old order, followed by
      the joined players that were not removed later, in join order. */
  lemma {:induction false} FoldPlayers(s: Session, ms: seq<ClientInbound>)
    requires forall i :: 0 <= i < |ms| ==> !ms[i].InGameState?
    ensures Fold(s, ms).gameState.players == WithoutIds(s.gameState.players, LeftIds(ms)) + JoinedNotLeft(ms)
    decreases |ms|
  {
    if ms == [] {
      WithoutIdsEmpty(s.gameState.players);
    } else {
      var t := Step(s, ms[0]);
      FoldPlayers(t, ms[1..]);
      assert Fold(s, ms) == Fold(t, ms[1..]);
      assert t.gameState.players == PlayersAfter(s.gameState.players, ms[0]);
      StepPlayers(s.gameState.players, ms[0], ms[1..]);
      assert [ms[0]] + ms[1..] == ms;
    }
  }

  /** The player list after one message that is not a snapshot. */
  function PlayersAfter(P: seq<Player>, m: ClientInbound): seq<Player> {
    if m.InPlayerJoin? then P + [m.player]
    else if m.InPlayerLeave? then WithoutPlayer(P, m.playerId)
    else P
  }

  /** One step of FoldPlayers: the players after the first message, filtered
      by the later leaves, are the filtered players before it followed by the
      first message's contribution to JoinedNotLeft. */
  lemma StepPlayers(P: seq<Player>, m: ClientInbound, rest: seq<ClientInbound>)
    ensures WithoutIds(PlayersAfter(P, m), LeftIds(rest)) + JoinedNotLeft(rest)
         == WithoutIds(P, LeftIds([m] + rest)) + JoinedNotLeft([m] + rest)
  {
    var ms := [m] + rest;
    assert ms[0] == m && ms[1..] == rest;
    var L := LeftIds(rest);
    if m.InPlayerJoin? {
      WithoutIdsAppend(P, [m.player], L);
      assert [m.player][1..] == [];
      assert WithoutIds([m.player], L) == if m.player.id !in L then [m.player] else [];
      assert LeftIds(ms) == L;
      assert JoinedNotLeft(ms) == WithoutIds([m.player], L) + JoinedNotLeft(rest);
    } else if m.InPlayerLeave? {
      WithoutIdsTwice(P, m.playerId, L);
      assert LeftIds(ms) == {m.playerId} + L;
    } else {
      assert LeftIds(ms) == L;
    }
  }

  /** Starting from an empty list, the players are exactly those joined and
      not subsequently left, in join order. */
  lemma JoinLeaveStream(s: Session, ms: seq<ClientInbound>)
    requires s.gameState.players == []
    requires forall i :: 0 <= i < |ms| ==> !ms[i].InGameState?
    ensures Fold(s, ms).gameState.players == JoinedNotLeft(ms)
  {
    FoldPlayers(s, ms);
  }

  /** The component's state cells and its socket reference. */
  class Game {
    var username: string
    var isJoined: bool
    var gameState: ClientView
    var wordToDraw: string
    var messages: seq<ChatPayload>
    var guess: string
    var websocket: Socket?

    function Current(): Session
      reads this
    {
      Session(gameState, wordToDraw, messages)
    }

    constructor ()
      ensures username == "" && !isJoined && guess == "" && websocket == null
      ensures Current() == Session(InitialView, "", [])
    {
      username := "";
      isJoined := false;
      gameState := InitialView;
      wordToDraw := "";
      messages := [];
      guess := "";
      websocket := null;
    }

    /** The effect that opens the connection once a name is set: it binds a
        socket only when joined with a non-empty name. */
    method Connect(ws: Socket)
      modifies this`websocket
      ensures websocket == if isJoined && username != "" then ws else old(websocket)
    {
      if isJoined && username != "" {
        websocket := ws;
      }
    }

    /** The `onmessage` handler. */
    method OnMessage(m: ClientInbound)
      modifies this`gameState, this`wordToDraw, this`messages
      ensures Current() == Step(old(Current()), m)
    {
      match m
      case InGameState(v) =>
        gameState := v;
      case InPlayerJoin(p) =>
        gameState := WithJoined(gameState, p);
      case InPlayerLeave(id) =>
        gameState := WithLeft(gameState, id);
      case InRoundStart(d, h) =>
        gameState := WithRound(gameState, d, h);
        wordToDraw := "";
      case InWordToDraw(w) =>
        wordToDraw := w;
      case InChatMessage(c) =>
        messages := messages + [c];
      case InCorrectGuess(c) =>
        messages := messages + [c];
      case _ =>
    }

    /** `handleJoin`: a non-blank name is stored as typed and the session is
        joined; a blank one changes nothing. */
    method HandleJoin(name: string)
      modifies this`username, this`isJoined
      ensures !IsBlank(name) ==> username == name && isJoined
      ensures IsBlank(name) ==> username == old(username) && isJoined == old(isJoined)
    {
      TrimEmptyIffBlank(name);
      if Trim(name) != "" {
        username := name;
        isJoined := true;
      }
    }

    /** `handleStartGame`: `start_game` is sent only on an open socket. */
    method HandleStartGame()
      modifies websocket
      ensures websocket != null ==> websocket.open == old(websocket.open)
      ensures websocket != null ==>
        websocket.outbox == if old(websocket.open) then old(websocket.outbox) + [StartGame] else old(websocket.outbox)
    {
      SendIfOpen(websocket, StartGame);
    }

    /** The guess input's change handler. */
    method SetGuess(text: string)
      modifies this`guess
      ensures guess == text
    {
      guess := text;
    }

    /** `handleSendGuess`: a non-blank guess on an open socket is sent as
        typed and the input cleared; otherwise nothing changes and nothing
        is sent. */
    method HandleSendGuess()
      modifies this`guess, websocket
      ensures websocket != null ==> websocket.open == old(websocket.open)
      ensures var sends := !IsBlank(old(guess)) && websocket != null && old(websocket.open);
        && (sends ==> guess == "" && websocket.outbox == old(websocket.outbox) + [Guess(old(guess))])
        && (!sends ==> guess == old(guess) && (websocket != null ==> websocket.outbox == old(websocket.outbox)))
    {
      TrimEmptyIffBlank(guess);
      if Trim(guess) != "" && websocket != null && websocket.open {
        websocket.outbox := websocket.outbox + [Guess(guess)];
        guess := "";
      }
    }
  }
}
