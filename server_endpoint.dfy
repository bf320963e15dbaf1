/** The server's per-connection websocket handler (`backend/main.py`): what it
    sends, to whom and in which order, for a join, each client command and a
    disconnect. Every `send_json` is one entry of an ordered delivery log. */
module ServerEndpoint {
  import opened Common
  import opened Wire
  import opened ServerState

  /** `"_ "` once per letter, before stripping. */
  function SpacedBlanks(n: nat): (r: string)
    ensures |r| == 2 * n
  {
    if n == 0 then "" else "_ " + SpacedBlanks(n - 1)
  }

  /** The hint non-drawers get for the secret word. */
  function WordHint(word: string): string {
    Trim(SpacedBlanks(|word|))
  }

  /** The alternating pattern `_ _ _ …` of length `len`. */
  function Alternating(len: nat): (r: string)
    ensures |r| == len
  {
    seq(len, i => if i % 2 == 0 then '_' else ' ')
  }

  lemma {:induction false} SpacedBlanksPattern(n: nat)
    ensures SpacedBlanks(n) == Alternating(2 * n)
  {
    if n > 0 {
      SpacedBlanksPattern(n - 1);
      var a, b := SpacedBlanks(n), Alternating(2 * n);
      forall i | 0 <= i < 2 * n ensures a[i] == b[i] {
        if i >= 2 {
          assert a[i] == SpacedBlanks(n - 1)[i - 2];
        }
      }
    }
  }

  /** The hint of an n-letter word (n >= 1) has length 2n - 1, with `_` at the
      even positions and a space at the odd ones; the empty word's hint is
      empty. */
  lemma WordHintShape(word: string)
    ensures |word| == 0 ==> WordHint(word) == ""
    ensures |word| >= 1 ==> WordHint(word) == Alternating(2 * |word| - 1)
  {
    var n := |word|;
    SpacedBlanksPattern(n);
    if n >= 1 {
      var s := SpacedBlanks(n);
      assert s[2 * n - 1] == ' ';
      assert s[..2 * n - 1] == Alternating(2 * n - 1);
      var t := s[..2 * n - 1];
      assert t[|t| - 1] == '_';
      assert TrimEnd(t) == t;
      assert TrimEnd(s) == t;
      assert t[0] == '_';
    }
  }

  /** `start_game` when a round started: the word to the drawer alone, then
      the round start with the hint to everyone else. */
  function StartGameDeliveries(order: seq<string>, drawerId: string, word: string): seq<Delivery> {
    [Delivery(drawerId, WordToDraw(word))]
      + Addressed(Excluding(order, Some(drawerId)), RoundStart(drawerId, WordHint(word)))
  }

  /** The drawer receives exactly the word, every other player exactly the
      round start with the hint, and nobody else anything. */
  lemma StartGameRecipients(order: seq<string>, drawerId: string, word: string, id: string)
    requires Distinct(order)
    ensures ReceivedBy(StartGameDeliveries(order, drawerId, word), id) ==
      if id == drawerId then [WordToDraw(word)]
      else if id in order then [RoundStart(drawerId, WordHint(word))]
      else []
  {
    var m := RoundStart(drawerId, WordHint(word));
    ReceivedByAppend([Delivery(drawerId, WordToDraw(word))], Addressed(Excluding(order, Some(drawerId)), m), id);
    BroadcastReceived(order, Some(drawerId), m, id);
  }

  /** The secret word appears in no delivery but the drawer's. */
  lemma StartGameWordOnlyToDrawer(order: seq<string>, drawerId: string, word: string)
    ensures forall d :: d in StartGameDeliveries(order, drawerId, word) && d.msg.WordToDraw? ==> d.to == drawerId
    ensures forall d :: d in StartGameDeliveries(order, drawerId, word) && d.to != drawerId ==>
      d.msg == RoundStart(drawerId, WordHint(word))
  {
    var rest := Addressed(Excluding(order, Some(drawerId)), RoundStart(drawerId, WordHint(word)));
    ExcludingMembers(order, Some(drawerId));
    assert forall d :: d in rest ==> d.msg.RoundStart? && d.to != drawerId by {
      forall d | d in rest ensures d.msg.RoundStart? && d.to != drawerId {
        var i :| 0 <= i < |rest| && rest[i] == d;
        assert Excluding(order, Some(drawerId))[i] in Excluding(order, Some(drawerId));
      }
    }
  }

  /** `draw`: the payload relayed as `drawing_data` to everyone but the sender. */
  function DrawDeliveries(order: seq<string>, sender: string, data: Segment): seq<Delivery> {
    Addressed(Excluding(order, Some(sender)), ReceiveDrawingData(data))
  }

  lemma DrawRecipients(order: seq<string>, sender: string, data: Segment, id: string)
    requires Distinct(order)
    ensures ReceivedBy(DrawDeliveries(order, sender, data), id) ==
      if id in order && id != sender then [DrawingData(data)] else []
  {
    BroadcastReceived(order, Some(sender), ReceiveDrawingData(data), id);
  }

  /** The reply to a guess: a correct one names the guesser and leaves the
      text out, a wrong one is an ordinary chat line with the text. */
  function GuessReply(sender: string, name: string, text: string, correct: bool): (m: ServerMsg)
    ensures m.CorrectGuess? <==> correct
    ensures m.ChatMessage? <==> !correct
    ensures m.playerId == sender && m.playerName == name
    ensures !correct ==> m.message == text
  {
    if correct then CorrectGuess(sender, name) else ChatMessage(sender, name, text)
  }

  /** `guess`: the reply goes to every player, the guesser included. */
  function GuessDeliveries(order: seq<string>, sender: string, name: string, text: string, correct: bool): seq<Delivery> {
    Addressed(Excluding(order, None), GuessReply(sender, name, text, correct))
  }

  lemma GuessRecipients(order: seq<string>, sender: string, name: string, text: string, correct: bool, id: string)
    requires Distinct(order)
    ensures ReceivedBy(GuessDeliveries(order, sender, name, text, correct), id) ==
      if id in order then [GuessReply(sender, name, text, correct)] else []
  {
    BroadcastReceived(order, None, GuessReply(sender, name, text, correct), id);
  }

  /** A join: the snapshot to the newcomer, then `player_join` with score 0 to
      every player, the newcomer included. */
  function JoinDeliveries(order: seq<string>, playerId: string, name: string, snapshot: Snapshot): seq<Delivery> {
    [Delivery(playerId, GameStateMsg(snapshot))]
      + Addressed(Excluding(order, None), PlayerJoin(Player(playerId, name, 0)))
  }

  lemma JoinRecipients(order: seq<string>, playerId: string, name: string, snapshot: Snapshot, id: string)
    requires Distinct(order) && playerId in order
    ensures ReceivedBy(JoinDeliveries(order, playerId, name, snapshot), id) ==
      if id == playerId then [GameStateMsg(snapshot), PlayerJoin(Player(playerId, name, 0))]
      else if id in order then [PlayerJoin(Player(playerId, name, 0))]
      else []
  {
    var m := PlayerJoin(Player(playerId, name, 0));
    ReceivedByAppend([Delivery(playerId, GameStateMsg(snapshot))], Addressed(Excluding(order, None), m), id);
    BroadcastReceived(order, None, m, id);
  }

  /** A disconnect: `player_leave` to the players that remain. */
  function LeaveDeliveries(remaining: seq<string>, playerId: string): seq<Delivery> {
    Addressed(Excluding(remaining, None), PlayerLeave(playerId))
  }

  lemma LeaveRecipients(before: seq<string>, playerId: string, id: string)
    requires Distinct(before)
    ensures ReceivedBy(LeaveDeliveries(Excluding(before, Some(playerId)), playerId), id) ==
      if id in before && id != playerId then [PlayerLeave(playerId)] else []
  {
    ExcludingDistinct(before, Some(playerId));
    ExcludingMembers(before, Some(playerId));
    BroadcastReceived(Excluding(before, Some(playerId)), None, PlayerLeave(playerId), id);
  }

  class Endpoint {
    const manager: GameStateManager
    /** Every message the server has sent, with its recipient. */
    var log: seq<Delivery>

    ghost predicate Valid()
      reads this, manager
    {
      manager.Valid()
    }

    constructor ()
      ensures Valid() && fresh(manager)
      ensures log == [] && manager.players == map[] && manager.gameStatus == Waiting
    {
      manager := new GameStateManager();
      log := [];
    }

    /** A new connection for `playerName`, given the id the server drew for
        it: the player is added before anything is sent. */
    method Connect(playerId: string, playerName: string)
      requires Valid()
      modifies this, manager
      ensures Valid()
      ensures manager.players == old(manager.players)[playerId := Player(playerId, playerName, 0)]
      ensures manager.order == if playerId in old(manager.players) then old(manager.order) else old(manager.order) + [playerId]
      ensures manager.gameStatus == old(manager.gameStatus) && manager.currentWord == old(manager.currentWord)
      ensures manager.currentDrawerId == old(manager.currentDrawerId)
      ensures manager.roundStartTime == old(manager.roundStartTime)
      ensures log == old(log) + JoinDeliveries(manager.order, playerId, playerName, manager.SnapshotFor(playerId))
    {
      manager.AddPlayer(playerId, playerName);
      var initial := manager.SnapshotFor(playerId);
      var first := [Delivery(playerId, GameStateMsg(initial))];
      var sent := manager.Broadcast(PlayerJoin(Player(playerId, playerName, 0)), None);
      assert first + sent == JoinDeliveries(manager.order, playerId, playerName, initial);
      log := log + (first + sent);
    }

    /** `start_game`. */
    method HandleStartGame(now: int)
      requires Valid()
      modifies this, manager
      ensures Valid()
      ensures manager.players == old(manager.players) && manager.order == old(manager.order)
      ensures |old(manager.players)| <= 1 ==> log == old(log) && unchanged(manager)
      ensures |old(manager.players)| > 1 ==>
        && manager.gameStatus == Drawing
        && manager.currentDrawerId.Some? && manager.currentDrawerId.value in manager.players
        && manager.currentWord.Some? && manager.currentWord.value in Words
        && manager.roundStartTime == Some(now)
        && log == old(log) + StartGameDeliveries(manager.order, manager.currentDrawerId.value, manager.currentWord.value)
    {
      var info := manager.StartRound(now);
      if info.Some? {
        var drawerId, word := info.value.drawerId, info.value.wordToDraw;
        var first := [Delivery(drawerId, WordToDraw(word))];
        var hint := WordHint(word);
        var sent := manager.Broadcast(RoundStart(drawerId, hint), Some(drawerId));
        assert first + sent == StartGameDeliveries(manager.order, drawerId, word);
        log := log + (first + sent);
      }
    }

    /** `draw` from `sender`. */
    method HandleDraw(sender: string, data: Segment)
      requires Valid()
      modifies this
      ensures Valid() && unchanged(manager)
      ensures log == old(log) + DrawDeliveries(manager.order, sender, data)
    {
      var relayed := ReceiveDrawingData(data);
      var sent := manager.Broadcast(relayed, Some(sender));
      log := log + sent;
    }

    /** `guess` from `sender`, a connected player. */
    method HandleGuess(sender: string, text: string)
      requires Valid()
      requires sender in manager.players
      modifies this, manager
      ensures Valid()
      ensures manager.order == old(manager.order)
      ensures manager.gameStatus == old(manager.gameStatus) && manager.currentWord == old(manager.currentWord)
      ensures manager.currentDrawerId == old(manager.currentDrawerId)
      ensures manager.roundStartTime == old(manager.roundStartTime)
      ensures old(manager.GuessScores(sender, text)) ==>
        manager.players == old(manager.players)[sender := old(manager.players)[sender].(score := old(manager.players)[sender].score + GuessPoints)]
      ensures !old(manager.GuessScores(sender, text)) ==> unchanged(manager)
      ensures log == old(log) + GuessDeliveries(manager.order, sender, old(manager.players)[sender].name, text,
                                                old(manager.GuessScores(sender, text)))
    {
      var correct := manager.ReceiveGuess(sender, text);
      var reply := GuessReply(sender, manager.players[sender].name, text, correct);
      var sent := manager.Broadcast(reply, None);
      log := log + sent;
    }

    /** One command from the connection of `sender`. Only `start_game`,
        `draw` and `guess` have a branch; every other tag, `clear` included,
        is read and dropped. */
    method HandleMessage(sender: string, msg: ClientMsg, now: int)
      requires Valid()
      requires msg.Guess? ==> sender in manager.players
      modifies this, manager
      ensures Valid()
      ensures msg.StartGame? && |old(manager.players)| <= 1 ==> log == old(log) && unchanged(manager)
      ensures msg.StartGame? ==> manager.players == old(manager.players) && manager.order == old(manager.order)
      ensures msg.StartGame? && |old(manager.players)| > 1 ==>
        && manager.gameStatus == Drawing
        && manager.currentDrawerId.Some? && manager.currentDrawerId.value in manager.players
        && manager.currentWord.Some? && manager.currentWord.value in Words
        && manager.roundStartTime == Some(now)
        && log == old(log) + StartGameDeliveries(manager.order, manager.currentDrawerId.value, manager.currentWord.value)
      ensures msg.Draw? ==> log == old(log) + DrawDeliveries(manager.order, sender, msg.segment) && unchanged(manager)
      ensures msg.Guess? ==>
        && manager.order == old(manager.order)
        && manager.gameStatus == old(manager.gameStatus) && manager.currentWord == old(manager.currentWord)
        && manager.currentDrawerId == old(manager.currentDrawerId)
        && manager.roundStartTime == old(manager.roundStartTime)
      ensures msg.Guess? && old(manager.GuessScores(sender, msg.message)) ==>
        manager.players == old(manager.players)[sender := old(manager.players)[sender].(score := old(manager.players)[sender].score + GuessPoints)]
      ensures msg.Guess? && !old(manager.GuessScores(sender, msg.message)) ==> unchanged(manager)
      ensures msg.Guess? ==>
        log == old(log) + GuessDeliveries(manager.order, sender, old(manager.players)[sender].name, msg.message,
                                          old(manager.GuessScores(sender, msg.message)))
      ensures (msg.Clear? || msg.OtherCommand?) ==> log == old(log) && unchanged(manager)
    {
      match msg
      case StartGame => HandleStartGame(now);
      case Draw(data) => HandleDraw(sender, data);
      case Guess(text) => HandleGuess(sender, text);
      case Clear =>
      case OtherCommand(_) =>
    }

    /** The connection of `playerId` closed: the player is removed first, then
        the others are told. */
    method Disconnect(playerId: string)
      requires Valid()
      modifies this, manager
      ensures Valid()
      ensures manager.players == old(manager.players) - {playerId}
      ensures manager.order == Excluding(old(manager.order), Some(playerId))
      ensures manager.gameStatus == old(manager.gameStatus) && manager.currentWord == old(manager.currentWord)
      ensures manager.currentDrawerId == old(manager.currentDrawerId)
      ensures manager.roundStartTime == old(manager.roundStartTime)
      ensures log == old(log) + LeaveDeliveries(manager.order, playerId)
    {
      manager.RemovePlayer(playerId);
      var sent := manager.Broadcast(PlayerLeave(playerId), None);
      log := log + sent;
    }
  }

  /** The snapshot a newcomer receives already lists the newcomer, with
      score 0, at its place in the table. */
  lemma JoinSnapshotListsNewcomer(m: GameStateManager, playerId: string, name: string)
    requires m.Valid() && playerId in m.players && m.players[playerId] == Player(playerId, name, 0)
    ensures Player(playerId, name, 0) in m.SnapshotFor(playerId).players
  {
    var i :| 0 <= i < |m.order| && m.order[i] == playerId;
    assert m.SnapshotFor(playerId).players[i] == Player(playerId, name, 0);
  }
}
