/** The server's game-state manager (`backend/game_state.py`): a player table
    keyed by id, kept in insertion order, and the status of the current round. */
module ServerState {
  import opened Common
  import opened Wire

  /** The candidate secret words. */
  const Words: seq<string> := ["apple", "banana", "car", "dog", "house", "tree", "computer", "book"]

  /** Seconds in a round, reported in every snapshot. */
  const RoundDuration: int := 60

  /** Points for a correct guess. */
  const GuessPoints: int := 10

  /** What `start_round` returns when a round starts. */
  datatype RoundInfo = RoundInfo(drawerId: string, wordToDraw: string)

  /** The ids of `ids`, in order, without `exclude`; with `None` nothing is
      left out (a string is never equal to `None`). */
  function Excluding(ids: seq<string>, exclude: Option<string>): (r: seq<string>)
    ensures |r| <= |ids|
  {
    if ids == [] then []
    else (if Some(ids[0]) != exclude then [ids[0]] else []) + Excluding(ids[1..], exclude)
  }

  lemma {:induction false} ExcludingAppend(a: seq<string>, b: seq<string>, exclude: Option<string>)
    ensures Excluding(a + b, exclude) == Excluding(a, exclude) + Excluding(b, exclude)
  {
    if a != [] {
      assert (a + b)[1..] == a[1..] + b;
      ExcludingAppend(a[1..], b, exclude);
    } else {
      assert a + b == b;
    }
  }

  /** Exactly the ids other than `exclude` are kept. */
  lemma {:induction false} ExcludingMembers(ids: seq<string>, exclude: Option<string>)
    ensures forall k :: k in Excluding(ids, exclude) <==> k in ids && Some(k) != exclude
  {
    if ids != [] {
      ExcludingMembers(ids[1..], exclude);
      assert forall k :: k in ids <==> k == ids[0] || k in ids[1..];
    }
  }

  /** With nothing to exclude, every id is kept, in order. */
  lemma {:induction false} ExcludingNone(ids: seq<string>)
    ensures Excluding(ids, None) == ids
  {
    if ids != [] {
      ExcludingNone(ids[1..]);
    }
  }

  /** Leaving ids out keeps the others distinct. */
  lemma {:induction false} ExcludingDistinct(ids: seq<string>, exclude: Option<string>)
    requires Distinct(ids)
    ensures Distinct(Excluding(ids, exclude))
  {
    if ids != [] {
      ExcludingDistinct(ids[1..], exclude);
      ExcludingMembers(ids[1..], exclude);
      assert ids[0] !in ids[1..];
    }
  }

  /** One delivery of `m` to each id, in order. */
  function Addressed(ids: seq<string>, m: ServerMsg): (r: seq<Delivery>)
    ensures |r| == |ids|
    ensures forall i :: 0 <= i < |ids| ==> r[i] == Delivery(ids[i], m)
  {
    if ids == [] then [] else [Delivery(ids[0], m)] + Addressed(ids[1..], m)
  }

  /** A broadcast to distinct ids reaches each of them exactly once and
      nobody else. */
  lemma {:induction false} AddressedReceived(ids: seq<string>, m: ServerMsg, id: string)
    requires Distinct(ids)
    ensures ReceivedBy(Addressed(ids, m), id) == if id in ids then [m] else []
  {
    if ids != [] {
      var ds := Addressed(ids, m);
      assert ds[1..] == Addressed(ids[1..], m);
      AddressedReceived(ids[1..], m, id);
      assert ids[0] !in ids[1..];
      assert forall k :: k in ids <==> k == ids[0] || k in ids[1..];
    }
  }

  /** The recipients of a broadcast with `exclude`: each player other than
      `exclude` gets the message once, the excluded one and strangers get
      nothing. */
  lemma BroadcastReceived(ids: seq<string>, exclude: Option<string>, m: ServerMsg, id: string)
    requires Distinct(ids)
    ensures ReceivedBy(Addressed(Excluding(ids, exclude), m), id)
         == if id in ids && Some(id) != exclude then [m] else []
  {
    ExcludingDistinct(ids, exclude);
    ExcludingMembers(ids, exclude);
    AddressedReceived(Excluding(ids, exclude), m, id);
  }

  /** The masked form of the word that non-drawers see: one `_` per
      character, or the empty string when there is no word. */
  function Masked(word: Option<string>): (r: string)
    ensures |r| == (if word.Some? then |word.value| else 0)
    ensures forall i :: 0 <= i < |r| ==> r[i] == '_'
  {
    if word.Some? && word.value != "" then seq(|word.value|, _ => '_') else ""
  }

  /** `receive_drawing_data`: the relayed form of a `draw` payload. */
  function ReceiveDrawingData(data: Segment): ServerMsg {
    DrawingData(data)
  }

  class GameStateManager {
    /** The keys of the Python dict, in insertion order. */
    var order: seq<string>
    var players: map<string, Player>
    var gameStatus: Status
    var currentWord: Option<string>
    var currentDrawerId: Option<string>
    var roundStartTime: Option<int>

    ghost predicate Valid()
      reads this
    {
      && Distinct(order)
      && (forall k :: k in players <==> k in order)
      && (forall k :: k in players ==> players[k].id == k)
      // a round in progress always has a word and a drawer, and only then
      && (gameStatus == Drawing <==> currentWord.Some?)
      && (gameStatus == Drawing <==> currentDrawerId.Some?)
      && (currentWord.Some? ==> currentWord.value in Words)
    }

    constructor ()
      ensures Valid()
      ensures order == [] && players == map[]
      ensures gameStatus == Waiting && currentWord == None && currentDrawerId == None
      ensures roundStartTime == None
    {
      order := [];
      players := map[];
      gameStatus := Waiting;
      currentWord := None;
      currentDrawerId := None;
      roundStartTime := None;
    }

    /** The player list of a snapshot: the players in dict order. */
    function PlayerList(): (r: seq<Player>)
      reads this
      requires Valid()
      ensures |r| == |order|
      ensures forall i :: 0 <= i < |order| ==> r[i] == players[order[i]]
    {
      seq(|order|, i requires 0 <= i < |order| && Valid() reads this => players[order[i]])
    }

    /** `add_player`: the id now maps to a fresh record with score 0; an id
        already present keeps its position. */
    method AddPlayer(playerId: string, name: string)
      requires Valid()
      modifies this
      ensures Valid()
      ensures players == old(players)[playerId := Player(playerId, name, 0)]
      ensures order == if playerId in old(players) then old(order) else old(order) + [playerId]
      ensures gameStatus == old(gameStatus) && currentWord == old(currentWord)
      ensures currentDrawerId == old(currentDrawerId) && roundStartTime == old(roundStartTime)
    {
      if playerId !in players {
        order := order + [playerId];
      }
      players := players[playerId := Player(playerId, name, 0)];
    }

    /** `remove_player`: deletes the id if present, a no-op otherwise. */
    method RemovePlayer(playerId: string)
      requires Valid()
      modifies this
      ensures Valid()
      ensures players == old(players) - {playerId}
      ensures order == Excluding(old(order), Some(playerId))
      ensures gameStatus == old(gameStatus) && currentWord == old(currentWord)
      ensures currentDrawerId == old(currentDrawerId) && roundStartTime == old(roundStartTime)
    {
      ExcludingMembers(order, Some(playerId));
      if playerId in players {
        ExcludingDistinct(order, Some(playerId));
        players := players - {playerId};
        order := Excluding(order, Some(playerId));
      } else {
        NotInExcluding(order, playerId);
      }
    }

    /** `broadcast`: one message to every player whose id differs from
        `exclude`, in dict order. */
    method Broadcast(m: ServerMsg, exclude: Option<string>) returns (sent: seq<Delivery>)
      ensures sent == Addressed(Excluding(order, exclude), m)
    {
      sent := [];
      var i := 0;
      while i < |order|
        invariant 0 <= i <= |order|
        invariant sent == Addressed(Excluding(order[..i], exclude), m)
      {
        var playerId := order[i];
        assert order[..i + 1] == order[..i] + [playerId];
        ExcludingAppend(order[..i], [playerId], exclude);
        AddressedAppend(Excluding(order[..i], exclude), Excluding([playerId], exclude), m);
        if Some(playerId) != exclude {
          sent := sent + [Delivery(playerId, m)];
        }
        i := i + 1;
      }
      assert order[..i] == order;
    }

    /** `start_round`: with more than one player, picks a word and a drawer,
        marks the round as drawing and returns both; otherwise nothing. */
    method StartRound(now: int) returns (info: Option<RoundInfo>)
      requires Valid()
      modifies this
      ensures Valid()
      ensures |old(players)| <= 1 ==> info == None && unchanged(this)
      ensures |old(players)| > 1 ==>
        && info.Some?
        && info.value.wordToDraw in Words
        && info.value.drawerId in players
        && currentWord == Some(info.value.wordToDraw)
        && currentDrawerId == Some(info.value.drawerId)
        && gameStatus == Drawing
        && roundStartTime == Some(now)
      ensures players == old(players) && order == old(order)
    {
      if |players| > 1 {
        assert Words[0] in Words;
        var word :| word in Words;
        currentWord := Some(word);
        assert players.Keys != {};
        var someId :| someId in players;
        assert players[someId] in players.Values;
        var drawer :| drawer in players.Values;
        currentDrawerId := Some(drawer.id);
        gameStatus := Drawing;
        roundStartTime := Some(now);
        return Some(RoundInfo(drawer.id, word));
      }
      return None;
    }

    /** The test that makes a guess correct. */
    predicate GuessScores(playerId: string, guess: string)
      reads this
    {
      && gameStatus == Drawing
      && Some(playerId) != currentDrawerId
      && currentWord.Some?
      && Lower(guess) == Lower(currentWord.value)
    }

    /** `receive_guess`: a non-drawer's case-insensitive exact match during a
        round scores 10 and returns true; anything else returns false and
        changes nothing. A scoring guess by an unknown id would fail in the
        source on the table lookup, so it is excluded. */
    method ReceiveGuess(playerId: string, guess: string) returns (correct: bool)
      requires Valid()
      requires GuessScores(playerId, guess) ==> playerId in players
      modifies this
      ensures Valid()
      ensures correct == old(GuessScores(playerId, guess))
      ensures correct ==> players == old(players)[playerId := old(players)[playerId].(score := old(players)[playerId].score + GuessPoints)]
      ensures !correct ==> unchanged(this)
      ensures order == old(order) && gameStatus == old(gameStatus) && currentWord == old(currentWord)
      ensures currentDrawerId == old(currentDrawerId) && roundStartTime == old(roundStartTime)
    {
      if gameStatus == Drawing && Some(playerId) != currentDrawerId {
        if Lower(guess) == Lower(currentWord.value) {
          var p := players[playerId];
          players := players[playerId := p.(score := p.score + GuessPoints)];
          return true;
        }
      }
      return false;
    }

    /** `get_game_state_for_player`. */
    function SnapshotFor(playerId: string): (s: Snapshot)
      reads this
      requires Valid()
      ensures |s.players| == |order|
      ensures forall i :: 0 <= i < |order| ==> s.players[i] == players[order[i]]
      ensures currentDrawerId == Some(playerId) ==> Some(s.currentWord) == currentWord
      ensures currentDrawerId != Some(playerId) ==>
        && |s.currentWord| == (if currentWord.Some? then |currentWord.value| else 0)
        && forall i :: 0 <= i < |s.currentWord| ==> s.currentWord[i] == '_'
      ensures s.gameStatus == gameStatus && s.currentDrawerId == currentDrawerId
      ensures s.roundStartTime == roundStartTime && s.roundDuration == RoundDuration
    {
      Snapshot(
        PlayerList(),
        gameStatus,
        if currentDrawerId != Some(playerId) then Masked(currentWord) else currentWord.value,
        currentDrawerId,
        roundStartTime,
        RoundDuration)
    }
  }

  lemma {:induction false} NotInExcluding(ids: seq<string>, id: string)
    requires id !in ids
    ensures Excluding(ids, Some(id)) == ids
  {
    if ids != [] {
      NotInExcluding(ids[1..], id);
    }
  }

  lemma {:induction false} AddressedAppend(a: seq<string>, b: seq<string>, m: ServerMsg)
    ensures Addressed(a + b, m) == Addressed(a, m) + Addressed(b, m)
  {
  }

  /** Scoring ignores the case of the guess. Every listed word is already
      lower case, so during a round a guess from anyone but the drawer scores
      exactly when it folds to the word itself. */
  lemma GuessIgnoresCase(m: GameStateManager, playerId: string, guess: string)
    requires m.Valid()
    ensures m.GuessScores(playerId, guess) <==> m.GuessScores(playerId, Lower(guess))
    ensures m.GuessScores(playerId, guess) <==>
      m.gameStatus == Drawing && Some(playerId) != m.currentDrawerId && Lower(guess) == m.currentWord.value
  {
    LowerIdempotent(guess);
    if m.currentWord.Some? {
      var w := m.currentWord.value;
      assert w in Words;
      LowerIdempotent(w);
      var k :| 0 <= k < |Words| && Words[k] == w;
      assert Lower(Words[k]) == Words[k] by {
        assert forall j :: 0 <= j < |Words| ==> forall c :: c in Words[j] ==> 'a' <= c <= 'z';
        LowerOfLowercase(Words[k]);
      }
    }
  }
}
