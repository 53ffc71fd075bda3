/** The in-memory room store and the request handlers that act on it:
    create_room, join_room, start_game, hit, stay and show_hand. A session is
    passed to each handler explicitly; the room and player codes that the
    server generates at random are parameters. */
module Rooms {
  import opened Cards
  import opened Scoring
  import opened Dealer

  type RoomCode = string
  type PlayerId = string

  datatype Option<T> = None | Some(value: T)

  /** An error reply: the HTTP status and the error text. */
  datatype Error = Error(status: int, message: string)

  datatype Result<T> = Ok(value: T) | Err(error: Error)

  const RoomNotFound := Error(404, "Room not found")
  const InvalidSession := Error(400, "Invalid session")
  const InvalidSessionOrRoom := Error(400, "Invalid session or room")
  /** What the server answers when a handler indexes the first card of an
      empty draw: the deck has run out. */
  const ServerError := Error(500, "Internal Server Error")

  const BustMessage := "Bust! You lose"
  const GameStarted := "Game started"

  /** The cookie session: the room and player it names, either possibly unset. */
  datatype Session = Session(roomCode: Option<RoomCode>, playerId: Option<PlayerId>)

  datatype Player = Player(hand: seq<Card>, ready: bool)

  /** A room: its deck, its players in the order they joined (the order a
      Python dict keeps, in which start_game deals), the dealer's hand, the
      game-over flag and the last message. */
  datatype Room = Room(
    deck: seq<Card>,
    players: map<PlayerId, Player>,
    seating: seq<PlayerId>,
    dealerHand: seq<Card>,
    gameOver: bool,
    message: string)

  /** The seating lists every player of the room exactly once. */
  ghost predicate Seated(room: Room)
  {
    && (forall p :: p in room.players <==> p in room.seating)
    && (forall i, j :: 0 <= i < j < |room.seating| ==> room.seating[i] != room.seating[j])
  }

  datatype JoinReply = JoinReply(message: string, playerId: PlayerId, session: Session)
  datatype StartReply = StartReply(message: string, dealerCard: Card)
  datatype HitReply = HitReply(card: Card, hand: seq<Card>, total: int)
  datatype StayReply = StayReply(dealerHand: seq<Card>, dealerTotal: int, playerTotal: int, result: string)
  datatype HandReply = HandReply(hand: seq<Card>, total: int)

  /** A new room: one player with an empty hand who is not ready, an empty
      dealer hand, the game not over and no message. */
  function NewRoom(deck: seq<Card>, id: PlayerId): (room: Room)
    ensures Seated(room)
    ensures room.players.Keys == {id} && room.players[id] == Player([], false)
    ensures room.dealerHand == [] && !room.gameOver && room.message == ""
    ensures room.deck == deck && room.seating == [id]
  {
    Room(deck, map[id := Player([], false)], [id], [], false, "")
  }

  /** The room after `id` joins: a fresh player record under `id`, which
      keeps its place if the id was already there; nobody else changes. */
  function Joined(room: Room, id: PlayerId): (r: Room)
    requires Seated(room)
    ensures Seated(r)
    ensures r.players.Keys == room.players.Keys + {id}
    ensures r.players[id] == Player([], false)
    ensures forall p :: p in room.players && p != id ==> r.players[p] == room.players[p]
    ensures r.deck == room.deck && r.dealerHand == room.dealerHand
    ensures r.gameOver == room.gameOver && r.message == room.message
    ensures r.seating == if id in room.players then room.seating else room.seating + [id]
  {
    var seating := if id in room.players then room.seating else room.seating + [id];
    assert forall p :: p in room.seating ==> p in seating;
    room.(players := room.players[id := Player([], false)], seating := seating)
  }

  class RoomStore {
    /** Every room by its code; rooms are never removed. */
    var rooms: map<RoomCode, Room>

    ghost predicate Valid()
      reads this
    {
      forall c :: c in rooms ==> Seated(rooms[c])
    }

    constructor ()
      ensures Valid() && rooms == map[]
    {
      rooms := map[];
    }

    /** The check of hit, stay and show_hand: the session names a room that
        exists and a player of that room. */
    predicate InRoom(s: Session)
      reads this
    {
      && s.roomCode.Some? && s.roomCode.value in rooms
      && s.playerId.Some? && s.playerId.value in rooms[s.roomCode.value].players
    }

    /** The check of start_game: both session values set and not empty, and
        the room exists (the player's membership is not checked). */
    predicate CanStart(s: Session)
      reads this
    {
      && s.roomCode.Some? && s.roomCode.value != ""
      && s.playerId.Some? && s.playerId.value != ""
      && s.roomCode.value in rooms
    }

    /** create_room: store a new room under `code` (replacing any room of
        that code) with `id` as its only player and `deck` as its deck. */
    method CreateRoom(code: RoomCode, id: PlayerId, deck: seq<Card>) returns (session: Session)
      requires Valid()
      modifies this
      ensures Valid()
      ensures session == Session(Some(code), Some(id))
      ensures rooms == old(rooms)[code := NewRoom(deck, id)]
    {
      rooms := rooms[code := NewRoom(deck, id)];
      session := Session(Some(code), Some(id));
    }

    /** join_room: an unknown room is refused with 404 and nothing changes;
        otherwise `id` joins with an empty hand and becomes the session. */
    method JoinRoom(code: Option<RoomCode>, id: PlayerId) returns (r: Result<JoinReply>)
      requires Valid()
      modifies this
      ensures Valid()
      ensures (code.None? || code.value !in old(rooms)) ==> r == Err(RoomNotFound) && rooms == old(rooms)
      ensures code.Some? && code.value in old(rooms) ==>
        && r == Ok(JoinReply("Joined room " + code.value, id, Session(code, Some(id))))
        && rooms == old(rooms)[code.value := Joined(old(rooms)[code.value], id)]
    {
      if code.None? || code.value !in rooms {
        return Err(RoomNotFound);
      }
      var c := code.value;
      rooms := rooms[c := Joined(rooms[c], id)];
      r := Ok(JoinReply("Joined room " + c, id, Session(code, Some(id))));
    }

    /** start_game: a fresh deck replaces the room's deck and the dealer and
        every player are dealt two cards; the game-over flag and the message
        are left as they were. The reply shows the dealer's first card, which
        fails when the deck gave none. */
    method StartGame(s: Session, freshDeck: seq<Card>) returns (r: Result<StartReply>)
      requires Valid()
      modifies this
      ensures Valid()
      ensures !old(CanStart(s)) ==> r == Err(InvalidSession) && rooms == old(rooms)
      ensures old(CanStart(s)) ==>
        var c := s.roomCode.value;
        && c in rooms
        && rooms == old(rooms)[c := rooms[c]]
        && DealtFrom(old(rooms)[c], freshDeck, rooms[c])
        && r == if rooms[c].dealerHand == [] then Err(ServerError)
                else Ok(StartReply(GameStarted, rooms[c].dealerHand[0]))
    {
      if !CanStart(s) {
        return Err(InvalidSession);
      }
      var c := s.roomCode.value;
      var room := DealRound(rooms[c], freshDeck);
      rooms := rooms[c := room];
      if room.dealerHand == [] {
        return Err(ServerError);
      }
      r := Ok(StartReply(GameStarted, room.dealerHand[0]));
    }

    /** hit: the calling player draws one card onto their hand; a hand over
        21 ends the game with the bust message. The game-over flag is not
        consulted first. An empty deck fails before anything changes. */
    method Hit(s: Session) returns (r: Result<HitReply>)
      requires Valid()
      modifies this
      ensures Valid()
      ensures !old(InRoom(s)) ==> r == Err(InvalidSessionOrRoom) && rooms == old(rooms)
      ensures old(InRoom(s)) ==>
        var c, id := s.roomCode.value, s.playerId.value;
        var room := old(rooms)[c];
        if room.deck == [] then r == Err(ServerError) && rooms == old(rooms)
        else
          var card := room.deck[0];
          var hand := room.players[id].hand + [card];
          var total := HandValue(hand);
          && r == Ok(HitReply(card, hand, total))
          && rooms == old(rooms)[c := room.(
               deck := room.deck[1..],
               players := room.players[id := room.players[id].(hand := hand)],
               gameOver := room.gameOver || total > 21,
               message := if total > 21 then BustMessage else room.message)]
    {
      if !InRoom(s) {
        return Err(InvalidSessionOrRoom);
      }
      var c, id := s.roomCode.value, s.playerId.value;
      var room := rooms[c];
      var drawn := DrawCards(room.deck, 1);
      if drawn.0 == [] {
        return Err(ServerError);
      }
      var card := drawn.0[0];
      var hand := room.players[id].hand + [card];
      var total := CalculateHandValue(hand);
      var gameOver, message := room.gameOver, room.message;
      if total > 21 {
        gameOver := true;
        message := BustMessage;
      }
      rooms := rooms[c := room.(
        deck := drawn.1,
        players := room.players[id := room.players[id].(hand := hand)],
        gameOver := gameOver,
        message := message)];
      r := Ok(HitReply(card, hand, total));
    }

    /** stay: the dealer draws while below 17, then the two totals are
        compared; the game is over and the outcome is the message. A deck
        that runs out mid-turn fails, keeping the cards already drawn. */
    method Stay(s: Session) returns (r: Result<StayReply>)
      requires Valid()
      modifies this
      ensures Valid()
      ensures !old(InRoom(s)) ==> r == Err(InvalidSessionOrRoom) && rooms == old(rooms)
      ensures old(InRoom(s)) ==>
        var c, id := s.roomCode.value, s.playerId.value;
        var room := old(rooms)[c];
        var n := DealerDraws(room.dealerHand, room.deck);
        var dealer := room.dealerHand + room.deck[..n];
        var dealerTotal := HandValue(dealer);
        var playerTotal := HandValue(room.players[id].hand);
        && if dealerTotal < StandTotal then
             && r == Err(ServerError)
             && rooms == old(rooms)[c := room.(deck := room.deck[n..], dealerHand := dealer)]
           else
             && r == Ok(StayReply(dealer, dealerTotal, playerTotal, Outcome(playerTotal, dealerTotal)))
             && rooms == old(rooms)[c := room.(deck := room.deck[n..], dealerHand := dealer,
                                               gameOver := true, message := Outcome(playerTotal, dealerTotal))]
    {
      if !InRoom(s) {
        return Err(InvalidSessionOrRoom);
      }
      var c, id := s.roomCode.value, s.playerId.value;
      var room := rooms[c];
      var dealer, deck, dealerTotal, exhausted := DealerTurn(room.dealerHand, room.deck);
      if exhausted {
        assert Seated(room.(deck := deck, dealerHand := dealer));
        rooms := rooms[c := room.(deck := deck, dealerHand := dealer)];
        return Err(ServerError);
      }
      var playerTotal := CalculateHandValue(room.players[id].hand);
      var result;
      if dealerTotal > 21 || playerTotal > dealerTotal {
        result := YouWin;
      } else if dealerTotal > playerTotal {
        result := DealerWins;
      } else {
        result := Tie;
      }
      assert Seated(room.(deck := deck, dealerHand := dealer, gameOver := true, message := result));
      rooms := rooms[c := room.(deck := deck, dealerHand := dealer, gameOver := true, message := result)];
      r := Ok(StayReply(dealer, dealerTotal, playerTotal, result));
    }

    /** show_hand: the calling player's hand and its value; nothing changes. */
    method ShowHand(s: Session) returns (r: Result<HandReply>)
      ensures !InRoom(s) ==> r == Err(InvalidSessionOrRoom)
      ensures InRoom(s) ==>
        var hand := rooms[s.roomCode.value].players[s.playerId.value].hand;
        r == Ok(HandReply(hand, HandValue(hand)))
    {
      if !InRoom(s) {
        return Err(InvalidSessionOrRoom);
      }
      var hand := rooms[s.roomCode.value].players[s.playerId.value].hand;
      var total := CalculateHandValue(hand);
      r := Ok(HandReply(hand, total));
    }

    /** Viewing the hand twice with nothing in between gives the same reply. */
    method ShowHandTwice(s: Session) returns (first: Result<HandReply>, second: Result<HandReply>)
      ensures first == second
      ensures first.Ok? <==> InRoom(s)
    {
      first := ShowHand(s);
      second := ShowHand(s);
    }
  }

  /** The dealer's turn in stay: draw one card at a time while the hand is
      worth less than 17. When a draw comes back empty the turn stops there,
      `exhausted`, with the cards drawn so far kept in the hand. */
  method DealerTurn(hand: seq<Card>, deck: seq<Card>)
      returns (dealer: seq<Card>, rest: seq<Card>, total: int, exhausted: bool)
    ensures var n := DealerDraws(hand, deck);
            dealer == hand + deck[..n] && rest == deck[n..]
    ensures total == HandValue(dealer)
    ensures exhausted <==> total < StandTotal
    ensures |dealer| - |hand| <= if HardTotal(hand) >= StandTotal then 0 else StandTotal - HardTotal(hand)
    ensures |deck| >= StandTotal - HardTotal(hand) ==> !exhausted
  {
    dealer, rest := hand, deck;
    total := CalculateHandValue(dealer);
    exhausted := false;
    ghost var k := 0;
    assert deck[..0] == [] && hand + [] == hand;
    while total < StandTotal
      invariant k <= |deck|
      invariant dealer == hand + deck[..k] && rest == deck[k..]
      invariant total == HandValue(dealer)
      invariant DealerDraws(hand, deck) == k + DealerDraws(dealer, rest)
      decreases |deck| - k
    {
      var drawn := DrawCards(rest, 1);
      if drawn.0 == [] {
        exhausted := true;
        DealerTurnBounds(hand, deck, dealer);
        return;
      }
      assert drawn.0 == [deck[k]] && drawn.1 == deck[k..][1..];
      DealerDrawsStep(hand, deck, k);
      dealer := dealer + drawn.0;
      rest := drawn.1;
      k := k + 1;
      total := CalculateHandValue(dealer);
    }
    DealerTurnBounds(hand, deck, dealer);
  }

  /** `dealt` is `room` after start_game's deal from `freshDeck`: the dealer
      takes the first two cards, then the players in seating order two cards
      each, replacing their hands; the rest of the fresh deck becomes the
      room's deck and nothing else changes. */
  ghost predicate DealtFrom(room: Room, freshDeck: seq<Card>, dealt: Room)
    requires Seated(room)
  {
    var n := |room.seating|;
    && dealt.dealerHand == Window(freshDeck, 0, 2)
    && dealt.players.Keys == room.players.Keys
    && (forall i :: 0 <= i < n ==>
          dealt.players[room.seating[i]] == room.players[room.seating[i]].(hand := Window(freshDeck, 2 + 2 * i, 2)))
    && dealt.deck == Remaining(freshDeck, 2 + 2 * n)
    && dealt.seating == room.seating
    && dealt.gameOver == room.gameOver && dealt.message == room.message
  }

  /** The players map of `room` part way through the deal: the first `i`
      players in seating order hold their two dealt cards, the others are
      as they were. */
  ghost predicate DealtUpTo(room: Room, freshDeck: seq<Card>, players: map<PlayerId, Player>, i: nat)
    requires Seated(room)
  {
    && i <= |room.seating|
    && players.Keys == room.players.Keys
    && (forall k :: 0 <= k < i ==>
          players[room.seating[k]] == room.players[room.seating[k]].(hand := Window(freshDeck, 2 + 2 * k, 2)))
    && (forall k :: i <= k < |room.seating| ==> players[room.seating[k]] == room.players[room.seating[k]])
  }

  /** Dealing to the next player in seating order extends the deal by one. */
  lemma DealOneMore(room: Room, freshDeck: seq<Card>, players: map<PlayerId, Player>, i: nat)
    requires Seated(room)
    requires DealtUpTo(room, freshDeck, players, i) && i < |room.seating|
    ensures room.seating[i] in players
    ensures DealtUpTo(room, freshDeck,
      players[room.seating[i] := players[room.seating[i]].(hand := Window(freshDeck, 2 + 2 * i, 2))], i + 1)
  {
    var pid := room.seating[i];
    assert pid in room.players;
    var dealt := players[pid := players[pid].(hand := Window(freshDeck, 2 + 2 * i, 2))];
    forall k | 0 <= k < |room.seating| && k != i
      ensures dealt[room.seating[k]] == players[room.seating[k]]
    {
      assert room.seating[k] != pid;
    }
  }

  /** The dealing loop of start_game on one room. */
  method DealRound(room: Room, freshDeck: seq<Card>) returns (dealt: Room)
    requires Seated(room)
    ensures DealtFrom(room, freshDeck, dealt)
    ensures Seated(dealt)
    ensures |freshDeck| >= 2 + 2 * |room.seating| ==>
      |dealt.dealerHand| == 2 && forall p :: p in dealt.players ==> |dealt.players[p].hand| == 2
  {
    assert Remaining(freshDeck, 0) == freshDeck;
    DrawNext(freshDeck, 0, 2);
    var first := DrawCards(freshDeck, 2);
    var deck := first.1;
    var players := room.players;
    for i := 0 to |room.seating|
      invariant deck == Remaining(freshDeck, 2 + 2 * i)
      invariant DealtUpTo(room, freshDeck, players, i)
    {
      var pid := room.seating[i];
      var hand := DrawCards(deck, 2);
      DrawNext(freshDeck, 2 + 2 * i, 2);
      DealOneMore(room, freshDeck, players, i);
      players := players[pid := players[pid].(hand := hand.0)];
      deck := hand.1;
    }
    dealt := room.(deck := deck, players := players, dealerHand := first.0);
    DealComplete(room, freshDeck, dealt);
  }

  /** Once every seat is dealt, the room is as DealtFrom describes, every
      player is still seated once, and with enough cards the dealer and
      every player of the room hold exactly two cards. */
  lemma DealComplete(room: Room, freshDeck: seq<Card>, dealt: Room)
    requires Seated(room)
    requires DealtUpTo(room, freshDeck, dealt.players, |room.seating|)
    requires dealt == room.(deck := Remaining(freshDeck, 2 + 2 * |room.seating|),
                            players := dealt.players, dealerHand := Window(freshDeck, 0, 2))
    ensures DealtFrom(room, freshDeck, dealt)
    ensures Seated(dealt)
    ensures |freshDeck| >= 2 + 2 * |room.seating| ==>
      |dealt.dealerHand| == 2 && forall p :: p in dealt.players ==> |dealt.players[p].hand| == 2
  {
  }
}
