# Blackjack rooms: a Dafny model of the game logic of `app.py`

The backend of a multi-room blackjack web game keeps every room in a dictionary held in
process memory. A room holds its deck, its players' hands, the dealer's hand, a game-over flag and
a message. Six request handlers act on the dictionary: `create_room`, `join_room`,
`start_game`, `hit`, `stay` and `show_hand`. Each handler checks a different amount before it acts:

- `create_room` checks nothing.
- `join_room` checks only that the room code in the request names an existing room.
- `start_game` checks that the session's room code and player id are set and not empty, and that the room exists.
  It does not check that the player belongs to the room.
- `hit`, `stay` and `show_hand` check that the session names an existing room and a player of that room.

When its check passes, every handler except `show_hand` changes the dictionary or a room in it; `show_hand` only reads them.
Hands are scored by `calculate_hand_value`, the blackjack scorer with the soft-ace rule.

This project models that logic in four modules:

- `Cards` (cards.dfy) defines ranks, suits and cards, and the remote deck as a supply of cards. A draw takes cards
  from the front of the sequence. When fewer cards remain than were asked for, the draw hands out what is left.
- `Scoring` (scoring.dfy) models `calculate_hand_value` as a method with the source's two loops. The method is
  proved equal to the specification `HandValue`. Lemmas then state what that value means: the
  least number of aces recounted as 1 that brings the hand to 21 or less (or all of them), the best
  total that does not bust, and bust exactly when the all-aces-as-1 sum busts.
- `Dealer` (dealer.dfy) defines how many cards the dealer draws in `stay` (`DealerDraws`) and the outcome rule
  of `stay` (`Outcome`). Its lemmas cover the dealer loop. Every draw happens below 17. The dealer
  stands on 17 or more unless the deck runs out. The number of draws is at most 17 minus the
  all-aces-as-1 sum, so a deck with that many cards always suffices.
- `Rooms` (rooms.dfy) holds the class `RoomStore`. Its `rooms` field is a map from room code to a `Room` value,
  and each handler except `ShowHand` is a method with `modifies this`; `ShowHand` modifies nothing. `DealRound` and `DealerTurn` hold the loops
  of `start_game` and `stay`. The invariant `Valid()` says that every room's seating lists each of
  its players exactly once. Every handler preserves it.

Sessions are explicit `Session(roomCode, playerId)` arguments, and each field may be unset.
`create_room` and `join_room` return the session they set. The randomly generated room and
player codes are parameters. So are the shuffled decks that the remote service creates: one
at `create_room` and a fresh one at `start_game`.

Behaviour reproduced as the code has it:

- `stay` never looks at whether the player has bust. A player on 25 against a dealer on 20 is told
  "You win!" (`Dealer.BustPlayerBeatsStandingDealer`).
- `hit` draws and scores even when `game_over` is already set. The flag only ever goes from false to
  true there, and the bust message is written only when the new total exceeds 21.
- `start_game` leaves `game_over` and `message` as they were, and deals even to a session whose
  player is not in the room.
- `join_room` with an id already in the room replaces that player's record with an empty one. The
  player keeps their place in the dealing order.
- `create_room` with a code already in use replaces that room.
- A Python dict iterates in insertion order, and `start_game` deals to players in that order.
  The model keeps this order explicitly as the room's `seating`.
- Indexing the first card of an empty draw raises an exception, which the server turns into
  an HTTP 500 reply (`ServerError`). This happens in `hit`, in the dealer loop of `stay` and in
  `start_game`'s reply. In `hit` nothing has changed at that point. In `stay` the cards drawn so far
  stay in the dealer's hand. In `start_game` the deal has already been stored.

The code enforces no order of game phases: `hit` and `stay` run whatever the game-over flag
says, and `start_game` may be called again at any time. The model does the same.

## Model

| member | source | states |
|---|---|---|
| Cards.DrawCards | api/deck_api.py:15-18 | a draw hands out the first `count` cards of the deck (fewer if fewer remain), and those cards followed by what is left are the old deck |
| Scoring.Points | app.py:155-162 | a card adds 11 exactly when it is an ace, 10 exactly for JACK, QUEEN, KING or 10, and otherwise its number, always between 2 and 11 |
| Scoring.RawTotal | app.py:154-162 | each card adds between 2 and 11, so the sum with every ace counted as 11 of n cards lies between 2·n and 11·n |
| Scoring.AceCount | app.py:154-162 | the number of aces counted by the loop is at most the number of cards |
| Scoring.HardTotal | app.py:152-165 | the sum with every ace counted as 1 is the raw sum less 10 per ace, and is at least the number of cards |
| Scoring.CalculateHandValue | app.py:151-166 | the for-loop sum and ace count, followed by the while-loop reduction, return exactly `HandValue(hand)` |
| Scoring.ReduceIsMinimal | app.py:163-165 | the reduction loop takes ten off per recounted ace, recounts at most every ace, stops at the first total not over 21, and is over 21 only when every ace is recounted |
| Scoring.HandValueIsMinimalReduction | app.py:151-166 | a hand's value is its raw sum (aces as 11) minus 10·k, where 0 ≤ k ≤ the ace count and k is the least count that brings the total to 21 or less, or the ace count when none does |
| Scoring.MinimalReductionIsUnique | app.py:163-165 | that description admits only one total, so it fixes the hand's value |
| Scoring.HandValueNoAces | app.py:154-162 | a hand without aces is worth the plain sum of its cards |
| Scoring.Reduce | app.py:163-165 | the reduction never raises the total and takes off at most ten per ace |
| Scoring.HandValueBounds | app.py:151-166 | the value `HandValue(hand)`, defined as `Reduce(RawTotal(hand), AceCount(hand))`, lies between the all-aces-as-1 sum and the all-aces-as-11 sum |
| Scoring.HandValueIsBestTotal | app.py:163-165 | of the totals reachable by counting some aces as 1, the value is the largest that does not exceed 21 |
| Scoring.HandValueBust | app.py:163-165 | if the all-aces-as-1 sum is 21 or less the value is 21 or less; otherwise the value equals that sum |
| Scoring.HardTotalGrows | app.py:113-115 | adding cards to a hand raises its all-aces-as-1 sum by at least one per card |
| Scoring.HandValueExamples | app.py:151-166 | [ACE, ACE, 9] is 21, [ACE, KING] is 21, [KING, QUEEN] is 20, [5, 6, 10] is 21 |
| Dealer.DealerDraws | app.py:112-115 | the dealer never draws more cards than the deck holds |
| Dealer.Outcome | app.py:119-124 | "You win!" exactly when the dealer is over 21 or the player is higher; "Dealer wins." exactly when the dealer is 21 or less and higher; "It's a tie." exactly when the dealer is 21 or less and equal |
| Dealer.BustPlayerBeatsStandingDealer | app.py:119-120 | a bust player against a dealer standing on 17 to 21 is told "You win!" |
| Dealer.DealerDrawsOnlyBelowStand | app.py:113-115 | each card the dealer draws is drawn while the hand is worth less than 17 |
| Dealer.DealerStands | app.py:113-115 | after its draws the dealer's hand is worth 17 or more, unless the whole deck was drawn |
| Dealer.DealerDrawsBound | app.py:113-115 | the dealer draws at most 17 minus the all-aces-as-1 sum of its starting hand, and none when that sum is already 17 or more |
| Dealer.DealerReachesStand | app.py:113-115 | a deck holding at least 17 minus that sum lets the dealer reach 17 |
| Dealer.DealerDrawsStep | app.py:113-115 | one loop step draws the next card of the deck onto the hand and keeps the count of draws still to come |
| Dealer.DealerTurnBounds | app.py:113-115 | for the hand the turn ends with: the bound on draws, and standing on 17 or more when the deck is long enough |
| Rooms.NewRoom | app.py:30-38 | a new room has one player with an empty hand who is not ready, an empty dealer hand, the game not over and an empty message |
| Rooms.Joined | app.py:53 | joining adds exactly the player `id` (empty hand, not ready) and leaves every other player, the deck, the dealer hand, the flag and the message unchanged; a new id is seated last and an existing id keeps its place in the dealing order |
| Rooms.DealRound | app.py:65-72 | the dealer gets the first two cards of the fresh deck, the i-th player in seating order gets the next two, only hands change, and the rest of the fresh deck is the room's deck; with 2 + 2·players cards every hand has exactly two |
| Rooms.DealComplete | app.py:69-72 | once every seat is dealt the room matches `DealtFrom`, every player is still seated once, and with enough cards the dealer and every player in the room hold exactly two cards |
| Rooms.DealerTurn | app.py:111-115 | the dealer loop appends exactly the next `DealerDraws` cards of the deck to the dealer hand in draw order, ends on 17 or more unless the deck ran out, draws at most 17 minus the all-aces-as-1 sum, and never runs out when the deck holds that many cards |
| Rooms.DealtFrom | app.py:65-72 | after the deal the dealer holds the first two cards of the fresh deck, the i-th player in seating order the two after the first 2 + 2·i, every other field of each player is kept, the rest of the fresh deck is the room's deck, and seating, flag and message are unchanged |
| Rooms.RoomStore.constructor | app.py:16 | the store starts with no rooms |
| Rooms.RoomStore.InRoom | app.py:84-86 | the check of hit (and, with the same lines, of stay and show_hand): the session names an existing room and a player of that room |
| Rooms.RoomStore.CanStart | app.py:62-63 | the check of start_game: room code and player id set and non-empty, and the room exists; the player's membership is not checked |
| Rooms.RoomStore.CreateRoom | app.py:22-40 | the room under `code` becomes a new room with `id` as its only player, all other rooms are unchanged, and the session names that room and player |
| Rooms.RoomStore.JoinRoom | app.py:42-55 | an unset or unknown room code gives the 404 "Room not found" and changes nothing; otherwise exactly that room gains the player and the reply carries "Joined room <code>", the id and the new session |
| Rooms.RoomStore.StartGame | app.py:57-77 | an unset, empty or unknown session gives the 400 "Invalid session" and changes nothing; otherwise only that room changes, it is dealt as `DealtFrom` describes, and the reply is "Game started" with the dealer's first card (500 when the deck gave none) |
| Rooms.RoomStore.Hit | app.py:79-100 | an invalid session or room gives 400 and changes nothing; an empty deck gives 500 and changes nothing; otherwise exactly one card, the deck's first, is appended to the caller's hand, the deck loses it, other hands and the dealer hand are unchanged, and the game is set over with "Bust! You lose" only when the new total exceeds 21 |
| Rooms.RoomStore.Stay | app.py:102-134 | an invalid session or room gives 400 and changes nothing; otherwise the dealer hand gains the next `DealerDraws` cards in order; standing on 17 or more, the game is over, the message is `Outcome(player, dealer)` and the reply carries both totals; a deck that ran out gives 500 with the drawn cards kept |
| Rooms.RoomStore.ShowHand | app.py:136-149 | an invalid session or room gives 400; otherwise the caller's hand and its value, and no room changes (the method modifies nothing) |
| Rooms.RoomStore.ShowHandTwice | app.py:136-149 | viewing the hand twice with nothing in between gives the same reply, which succeeds exactly when the session names a player of an existing room |

## Left out

- The HTTP and session shell is left out: Flask routing, `jsonify`, `request.json`, the session cookie and its server-side store, and CORS (app.py:3-14, 168-169). Sessions are explicit arguments, and replies are result datatypes carrying the same fields and error texts.
- The `/` route (app.py:18-20) returns a fixed greeting and touches no state.
- `uuid` generation (app.py:24-25, 50) is left out: room and player codes are parameters.
- The remote deck client is not part of this model. It makes HTTP calls, raises on HTTP errors and decodes JSON, and the model replaces all of this with a card sequence. The fresh decks it creates are parameters.
- Exhaustion of the remote deck is an assumption of the model: a draw is taken to return the cards that remain. Remote failures of any other kind are left out.
- Calls into the deck client that do not match it are left out. The client defines no `new_deck` method, which `start_game` calls (app.py:67). It also builds the draw URL without a slash before `draw` (api/deck_api.py:16). The model gives both calls their evident meaning: a fresh shuffled deck, and a draw from the front.
- The HTTP 500 reply's text is the web framework's default. The source states no such text.
- Concurrent requests racing on the shared dictionary are left out: the model runs one handler at a time.
- Rank strings that `int()` cannot parse (app.py:162) are left out: rank is a closed datatype, 2 to 10 plus JACK, QUEEN, KING and ACE. Card fields other than rank and suit are dropped.
- The React front end (frontend/src) is left out: it is display and requests only.
