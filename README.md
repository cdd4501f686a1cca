# Prší over UDP: a Dafny model of the game server and client core

Prší is a two-player card game. This repository plays it over UDP: a C++
server keeps the lobbies and players, and a Python client keeps one session
with that server. This project models the sequential logic of both sides as
Dafny and proves properties of the model.

**Cards** (`cards.dfy`)
- A card is a value and a suit; its text is `value + suit`.
- The server builds its deck suit by suit, and the client builds its deck
  rank by rank.
- A shuffle is a Fisher-Yates pass driven by a sequence of rolls, so it can
  stand for any permutation.

**SimpleJSON** (`json.dfy`)
- The server's flat codec. An object maps each key to already-rendered value
  text.
- It has the `serialize_*` string builders, `trim` and the comma/colon parser
  `deserialize_object`, all with their exceptions.
- The `SimpleJSON` class holds `data_` and its `assign_*` and `operator[]`
  methods.
- Proved: a conditional round trip, with parsing after serialising giving
  back the unquoted values.

**Server deck and lobby** (`server_deck.dfy`, `lobby.dfy`)
- `Deck` is a stack of cards.
- `Lobby::initialize_game` deals four cards to each player and one card to
  the discard pile, and records the game state.

**Server rules** (`server_rules.dfy`, `server_props.dfy`, `server_moves.dfy`, `server_valid.dfy`, `server_sweep.dfy`)
- The server's state holds three things:
  - the lobby list;
  - the player table, keyed by name;
  - the datagrams sent so far, as an outbox of (address, object) pairs.
- Each branch of `handle_message` and the `check_disconnections` sweep is a
  function from one state to the next.
- Proved about these functions:
  - card conservation over deck, discard pile and hands;
  - the turn guard;
  - the lobby shape;
  - the sweep's deletion rule;
  - a server invariant that every message and every sweep keeps.

**Server class** (`server.dfy`)
- The `GameServer` class holds `lobbies`, `players` and the outbox as
  fields.
- Its methods run the source's loops: the card search, the seven's draws,
  the lobby search and the iterator-erase sweep.
- Each method is proved to reach the state the rules give.

**Client session** (`client_session.dfy`, `client_props.dfy`)
- `NetworkClient` has the session flags, the message queue, the retry
  counter and an outbox of packets sent.
- One pass of the receive loop, one heartbeat and one reconnect attempt are
  each a method call.
- Proved at the session level:
  - the validator;
  - the send guards;
  - the FIFO queue;
  - the reconnect outcomes;
  - a session invariant that holds over any sequence of calls.

**Client rules** (`client_rules.dfy`)
- `Player`: the hand and the legal-play rule.
- `Deck`: the 32-card deck, dealt from the front, with a discard pile.

The outside world becomes parameters and outputs:
- the clock becomes an integer `now` in seconds;
- randomness becomes a roll sequence;
- a datagram received on either side becomes a method input;
- every datagram sent is appended to an outbox.

Where the code and its design notes disagree, the model follows the code:
- A `play_card` or `draw_card` whose sender has no lobby, or whose lobby
  is not full, gets no reply (game_server/server.cpp:335). It does not get
  "Not your turn yet.".
- The server accepts a play only when the card matches the top discard's
  suit or value (game_server/server.cpp:370-377). It has no wild queen and no
  chosen suit; those belong to the client's own rule in client/player.py.
- The client's reconnect loop makes at most one pass per call. The `close()`
  it calls clears `running`, and the loop tests `running`.

## Model

| member | source | states |
|---|---|---|
| Cards.SuitMajorDeck | game_server/deck.cpp:8-16 | the server's deck order has 32 cards |
| Cards.RankMajorDeck | client/deck.py:15 | the client's deck order has 32 cards |
| Cards.ToStringInjective | game_server/card.cpp:7-9 | two standard cards with the same `value + suit` text are the same card, so a hand search by text finds the card meant |
| Cards.SuitMajorDeckIsComplete | game_server/deck.cpp:12-16 | the suit-outer, value-inner loops build every standard card exactly once and nothing else |
| Cards.RankMajorDeckIsComplete | client/deck.py:13-16 | the rank-outer, suit-inner comprehension builds every standard card exactly once and nothing else |
| Cards.DeckOrdersArePermutations | client/deck.py:15 | the client's and the server's decks hold the same multiset of cards |
| Cards.FisherYatesPermutes | game_server/deck.cpp:19-23 | each Fisher-Yates pass over a prefix keeps the length and the multiset of the cards |
| Cards.ShufflePermutes | client/deck.py:18-20 | a shuffle driven by any roll sequence is a permutation of its input |
| SimpleJson.IndexOf | game_server/json.cpp:82 | a found position lies inside the string |
| SimpleJson.IndexOfSpec | game_server/json.cpp:82 | `find` gives npos exactly when the character is absent, else the position of its first occurrence |
| SimpleJson.LastIndexOf | game_server/json.cpp:83 | a found position lies inside the string |
| SimpleJson.LastIndexOfSpec | game_server/json.cpp:83 | `rfind` gives npos exactly when the character is absent, else the position of its last occurrence |
| SimpleJson.FirstNonBlank | game_server/json.cpp:123 | a found position lies inside the string |
| SimpleJson.FirstNonBlankSpec | game_server/json.cpp:123 | npos exactly on blank-only text, else the first character that is neither space nor tab |
| SimpleJson.LastNonBlank | game_server/json.cpp:124 | a found position lies inside the string |
| SimpleJson.LastNonBlankSpec | game_server/json.cpp:124 | npos exactly on blank-only text, else the last character that is neither space nor tab |
| SimpleJson.NonBlankBounds | game_server/json.cpp:123-125 | both searches fail together, and the first non-blank never follows the last |
| SimpleJson.TrimSpec | game_server/json.cpp:122-126 | `trim` throws std::out_of_range exactly on blank-only text; otherwise it returns a slice of the input with only blanks cut from either end, starting and ending in a non-blank |
| SimpleJson.TrimPadded | game_server/json.cpp:122-126 | leading blanks before a text that starts and ends in a non-blank are removed and the text is kept |
| SimpleJson.Quote | game_server/json.cpp:162-164 | the stored string is the value between two double quotes |
| SimpleJson.RemoveQuotes | game_server/server.cpp:614-619 | a text that starts and ends with `"` loses those two characters, any other text is returned unchanged |
| SimpleJson.RemoveQuotesInvertsQuote | game_server/server.cpp:614-619 | remove_quotes undoes the quoting of assign_string |
| SimpleJson.GetlineSplit | game_server/json.cpp:94 | the pieces `getline(ss, piece, ',')` reads contain no comma, and there are none exactly when the text is empty |
| SimpleJson.GetlineSplitCons | game_server/json.cpp:94 | a comma-free text followed by a comma is read as one piece, then the rest |
| SimpleJson.GetlineSplitLast | game_server/json.cpp:94 | a non-empty comma-free text is read as one piece |
| SimpleJson.SortedKeys | game_server/json.cpp:7-10 | std::map iterates over every key once, in strictly increasing string order |
| SimpleJson.EntriesOf | game_server/json.cpp:7-10 | one `"key": value` entry per key, in the given order, the value written verbatim |
| SimpleJson.SerializeObject | game_server/json.cpp:4-13 | the text is wrapped in braces, and an empty object is `{}` |
| SimpleJson.QuotedItems | game_server/json.cpp:19-22 | each array element is written quoted, in order |
| SimpleJson.SerializeArray | game_server/json.cpp:16-25 | the text is wrapped in brackets, and an empty array is `[]` |
| SimpleJson.CardTexts | game_server/json.cpp:61-64 | each card of the hand is written by serialize_card, in hand order |
| SimpleJson.QuoteAll | game_server/json.cpp:47-50 | same keys, every value quoted |
| SimpleJson.ObjectTexts | game_server/json.cpp:43-52 | each object of the array is written as an object with quoted values, in order |
| SimpleJson.NestedEntries | game_server/json.cpp:28-37 | one entry per listed key, in order: entry i is `"key": ` followed by serialize_array_of_objects of that key's objects |
| SimpleJson.ConvertHandToNested | game_server/json.cpp:211-217 | one `{suit, value}` map per card, in hand order |
| SimpleJson.SerializeCardIsObject | game_server/json.cpp:70-77 | serialize_card writes exactly the object text of the map `{suit, value}` with quoted values |
| SimpleJson.NestedHandIsCards | game_server/json.cpp:40-67 | a hand converted by convert_hand_to_nested and written by serialize_array_of_objects reads the same as serialize_cards of the hand |
| SimpleJson.NatToString | game_server/json.cpp:167-169 | a decimal rendering is never empty |
| SimpleJson.NatToStringValue | game_server/json.cpp:167-169 | the digits of std::to_string on a non-negative number denote that number and carry no sign |
| SimpleJson.IntToStringValue | game_server/json.cpp:167-169 | the text std::to_string stores for any int reads back as the same number |
| SimpleJson.WithStringReadsBack | game_server/json.cpp:162-164 | assign_string adds or replaces only its key, which reads back unquoted as the value |
| SimpleJson.WithIntReadsBack | game_server/json.cpp:167-169 | assign_int adds or replaces only its key, which holds decimal text denoting the value |
| SimpleJson.WithBoolReadsBack | game_server/json.cpp:206-208 | assign_bool adds or replaces only its key, which holds `true` exactly when the value is true and `false` otherwise |
| SimpleJson.WithHands | game_server/json.cpp:150-154 | every hand owner's key holds serialize_cards of that hand; other keys are kept |
| SimpleJson.WriteHandsStep | game_server/json.cpp:151-153 | one iteration of the loop writes the next owner's hand and leaves the same final result to reach |
| SimpleJson.WriteHandsEnd | game_server/json.cpp:150-154 | after the loop has visited every owner the data is what WithHands describes |
| SimpleJson.WriteAllHands | game_server/json.cpp:150-154 | writing each hand in key order gives the map WithHands describes |
| SimpleJson.Lookup | game_server/json.cpp:197-203 | the const operator[] succeeds exactly on a present key, with its stored text, and throws std::out_of_range otherwise |
| SimpleJson.DeserializeObject | game_server/json.cpp:79-87 | a text without `}` throws std::invalid_argument("Invalid JSON object") and leaves the data empty |
| SimpleJson.ArrayElements | game_server/json.cpp:140-145 | one element per piece, each cut between the piece's first and last double quote |
| SimpleJson.DeserializeArray | game_server/json.cpp:129-135 | a text without `]` throws std::invalid_argument("Invalid JSON array") |
| SimpleJson.ParsePairSpec | game_server/json.cpp:96-117 | a piece is skipped exactly when it trims to a text without a colon; trim throws exactly when the piece, or either side of its first colon, is blank-only; otherwise both sides of the first colon are trimmed, unquoted and stored as the key and the value |
| SimpleJson.SplitJoined | game_server/json.cpp:94 | getline splits a `, `-joined list of non-empty comma-free entries back into those entries, each later one with its leading blank |
| SimpleJson.ObjectRoundTrip | game_server/json.cpp:79-119 | an object built only with assign_string, whose keys hold no comma or colon and whose values hold no comma, deserializes back to exactly those keys and values, without an exception |
| SimpleJson.CardRoundTrip | game_server/json.cpp:70-119 | the text serialize_card writes deserializes back to the card's suit and value |
| SimpleJson.ArrayElementOfQuoted | game_server/json.cpp:141-143 | an element quoted after quote-free text reads back as the text between the quotes |
| SimpleJson.ArrayRoundTrip | game_server/json.cpp:129-148 | deserialize_array reads back every array serialize_array wrote whose elements hold no comma |
| SimpleJson.LaterPairWins | game_server/json.cpp:117 | a later pair with an already stored key overwrites its value |
| SimpleJson.ThrowKeepsEarlierPairs | game_server/json.cpp:94-118 | the first exception inside the loop ends the parse, and the pairs stored before it stay in the data |
| SimpleJson.SimpleJSON.constructor | game_server/json.h:80-81 | a new object holds no entries |
| SimpleJson.SimpleJSON.AssignString | game_server/json.cpp:162-164 | the data after assign_string is the old data with the key set to the quoted value |
| SimpleJson.SimpleJSON.AssignInt | game_server/json.cpp:167-169 | the data after assign_int is the old data with the key set to the decimal text |
| SimpleJson.SimpleJSON.AssignBool | game_server/json.cpp:206-208 | the data after assign_bool is the old data with the key set to `true` or `false` |
| SimpleJson.SimpleJSON.AssignCard | game_server/json.cpp:172-174 | the key is set to serialize_card of the card |
| SimpleJson.SimpleJSON.AssignCards | game_server/json.cpp:157-159 | the key is set to serialize_cards of the hand |
| SimpleJson.SimpleJSON.AssignArray | game_server/json.cpp:177-179 | the key is set to serialize_array of the array |
| SimpleJson.SimpleJSON.AssignNestedObject | game_server/json.cpp:182-184 | the key is set to serialize_nested_object of the object |
| SimpleJson.SimpleJSON.AssignMultipleHands | game_server/json.cpp:150-154 | the loop over the hands map in key order leaves the data WithHands describes |
| SimpleJson.SimpleJSON.Index | game_server/json.cpp:192-194 | the non-const operator[] returns a present key's text unchanged, and inserts an absent key with an empty value |
| SimpleJson.SimpleJSON.Deserialize | game_server/json.cpp:79-119 | the member clears the data and leaves the pairs and the exception DeserializeObject describes |
| ServerDeck.NewDeck | game_server/deck.cpp:7-24 | a constructed deck holds 32 cards |
| ServerDeck.Draw | game_server/deck.cpp:27-34 | draw_card throws std::runtime_error("Deck is empty") exactly on an empty deck, and otherwise takes the last card |
| ServerDeck.DrawTakesOne | game_server/deck.cpp:27-34 | a successful draw removes exactly one card, one that was in the deck |
| ServerDeck.NewDeckIsComplete | game_server/deck.cpp:7-24 | whatever the random generator does, a new deck holds each of the 32 standard cards exactly once |
| ServerDeck.Deck.constructor | game_server/deck.cpp:7-24 | the nested loops build the suit-major order, which is then shuffled |
| ServerDeck.Deck.DrawCard | game_server/deck.cpp:27-34 | an empty deck throws and is left as it was; otherwise the last card is returned and removed |
| ServerDeck.Deck.Size | game_server/deck.cpp:37-39 | the number of cards in the deck |
| ServerLobby.NewLobby | game_server/server.cpp:68-71 | a new lobby seats its first player, the second seat is empty, the lobby is not full and its pile is empty |
| ServerLobby.TopCards | game_server/lobby.cpp:8-17 | n successive draws take the last n cards, from the back |
| ServerLobby.TopCardsSnoc | game_server/lobby.cpp:9-11 | one more draw appends the next card from the back |
| ServerLobby.TopCardsSplit | game_server/lobby.cpp:8-17 | the cards drawn and the cards left are the deck's cards |
| ServerLobby.ReversedSameCards | game_server/lobby.cpp:8-17 | cards taken in reverse order are the same multiset |
| ServerLobby.InitializeGame | game_server/lobby.cpp:3-38 | initialize_game on a full lobby gives the lobby and players Deal describes |
| ServerLobby.DealFromDeck | game_server/lobby.cpp:8-37 | the loops dealing from a 32-card deck give the state DealFrom describes |
| ServerLobby.DealCardsConserves | game_server/lobby.cpp:8-20 | dealing from 32 cards leaves 23 in the deck, adds four to each hand and one to the pile, and no card is lost or made |
| ServerLobby.DealSplit | game_server/lobby.cpp:8-20 | the first hand, the second hand, the pile card and the rest of the deck are the deck's cards |
| ServerLobby.DealConservesCards | game_server/lobby.cpp:3-20 | initialize_game adds exactly the 32 standard cards to what the lobby and its players already held |
| ServerLobby.FreshDealIsFullDeck | game_server/lobby.cpp:3-20 | from empty hands and an empty pile the table holds exactly the 32 standard cards |
| ServerLobby.DealRecordsState | game_server/lobby.cpp:22-27 | the game_state records both names, player 1 to move, the deck and pile sizes and the top card |
| ServerLobby.DealtStateFields | game_server/lobby.cpp:22-37 | every game_state field written at the end of initialize_game reads back as the value written |
| ServerRules.FlagsKeepShape | game_server/server.cpp:319-329 | updating only the clocks and addresses of known players keeps every lobby's seats known and apart |
| ServerRules.LobbyOf | game_server/server.cpp:75-83 | a found lobby index lies inside the vector |
| ServerRules.LobbyOfSpec | game_server/server.cpp:75-83 | find_player_lobby returns the first lobby that seats the name, and null exactly when none does |
| ServerRules.FirstOpen | game_server/server.cpp:41-42 | a found lobby index lies inside the vector |
| ServerRules.FirstOpenSpec | game_server/server.cpp:41-64 | find_or_create_lobby joins the first lobby that is not full, and creates one only when every lobby is full |
| ServerRules.JoinLobby | game_server/server.cpp:37-73 | the player's lobby is one of the lobbies afterwards |
| ServerRules.DealKeepsSeats | game_server/lobby.cpp:3-27 | initialize_game keeps both seats and leaves a card on the discard pile |
| ServerRules.JoinKeepsShape | game_server/server.cpp:37-73 | seating a known, connected player who sits nowhere keeps each seat naming a known player and no name in two lobbies |
| ServerRules.JoinSecondShape | game_server/server.cpp:48-61 | taking the second seat of an open lobby and dealing keeps the lobbies well formed |
| ServerRules.AppendKeepsShape | game_server/server.cpp:66-72 | appending a new lobby that seats only a name seated nowhere keeps the lobbies well formed |
| ServerRules.AddKeepsShape | game_server/server.cpp:278-281 | registering a name not yet known seats it nowhere and keeps the lobbies well formed |
| ServerRules.FindCard | game_server/server.cpp:353-356 | a found card position lies inside the hand |
| ServerRules.RefillKeepsTop | game_server/server.cpp:469-484 | a refill leaves cards to draw, keeps the top discard on the pile and changes only the deck and the pile |
| ServerRules.MarkIfGone | game_server/server.cpp:130-157 | the short check for a seat never adds or removes a player record |
| ServerRules.SweepLobby | game_server/server.cpp:123-205 | a deleted lobby's seated players are erased from the players map, and a kept lobby's players all remain |
| ServerProperties.FindCardSpec | game_server/server.cpp:353-356 | the find_if stops at the first card whose text is the played text, and fails exactly when no card has it |
| ServerProperties.DrawUpToSpec | game_server/server.cpp:385-390 | the seven's loop moves min(2, deck size) cards from the back of the deck to the end of the hand, and no card is lost |
| ServerProperties.DrawUpToTakes | game_server/server.cpp:385-390 | each pass of the loop draws only while the deck is not empty |
| ServerProperties.RefillSpec | game_server/server.cpp:469-493 | a refill happens only from an empty deck; the error branch is taken exactly when the pile holds at most one card; otherwise the deck gets every discard but the top, which stays alone on the pile |
| ServerProperties.JoinAppends | game_server/server.cpp:66-72 | with every lobby full, a new lobby seating the player in seat 1 is appended |
| ServerProperties.JoinSeats | game_server/server.cpp:41-63 | otherwise the player takes seat 2 of the first lobby that is not full, keeping its seat 1 and every other lobby |
| ServerProperties.JoinKeepsPlayers | game_server/server.cpp:48-61 | joining an open lobby changes only the hands of the two seated players |
| ServerProperties.JoinFinds | game_server/server.cpp:37-73 | afterwards find_player_lobby finds the player's lobby, at most one lobby is added, and that lobby is full exactly when an open one existed |
| ServerProperties.JoinFindsNew | game_server/server.cpp:66-72 | the appended lobby is the one find_player_lobby finds, and it is not full |
| ServerProperties.JoinFindsOpen | game_server/server.cpp:41-62 | the filled lobby is the one find_player_lobby finds, and it is full |
| ServerProperties.JoinUnfold | game_server/server.cpp:48-61 | joining the first open lobby seats the player and deals that lobby |
| ServerProperties.JoinDeals | game_server/server.cpp:59-61 | the lobby the player fills is dealt from a fresh deck: four cards each from the back, one to the pile, 23 left |
| ServerProperties.ConnectAsWrittenReregisters | game_server/server.cpp:260-281 | as written, a connected player "bob" is registered again when the name arrives as `"bob"` with its quotes (see Findings) |
| ServerProperties.ConnectSpec | game_server/server.cpp:260-315 | with the lookup made on the unquoted name: a known disconnected name is reconnected, a known connected name gets exactly one name_taken reply and nothing else changes, and a new name is registered |
| ServerProperties.MessageFields | game_server/server.cpp:212-214 | an error-style message has exactly a type and one text field, both reading back as written |
| ServerProperties.RegisterUnfold | game_server/server.cpp:278-315 | registration adds the player, seats it with find_or_create_lobby, acknowledges the sender, and broadcasts when the lobby is full |
| ServerProperties.RegisterAdds | game_server/server.cpp:278-281 | registration adds exactly the new player, connected and seen now, and changes other players' hands only |
| ServerProperties.RegisterSeats | game_server/server.cpp:284 | after registration find_player_lobby finds the player's lobby, and it is full exactly when an open lobby existed |
| ServerProperties.RegisterSends | game_server/server.cpp:286-315 | registration sends the connect_ack to the sender first, then, when the game starts, the two state updates |
| ServerProperties.RegisterWaits | game_server/server.cpp:286-312 | a player who must wait gets exactly one ack with type, player_id and waiting_for_player `true` |
| ServerProperties.HeartbeatSpec | game_server/server.cpp:316-330 | an unknown name changes nothing; a connected player's clock and address are updated; a disconnected player is seen now and reconnected |
| ServerProperties.DisconnectedSitsFull | game_server/server.cpp:135-145 | a disconnected player still seated sits in a full lobby, because a lone player is deleted when marked |
| ServerProperties.ReconnectRefuses | game_server/server.cpp:209-224 | an unknown or connected name gets exactly one "Invalid reconnection attempt." error and nothing else changes; a disconnected player seated nowhere changes nothing |
| ServerProperties.ReconnectRestores | game_server/server.cpp:219-256 | a disconnected player seated in a lobby is restored in the first lobby that seats them, which is full |
| ServerProperties.RestoreSpec | game_server/server.cpp:226-235 | only that player changes (new address, connected, seen now), and the lobby is unpaused exactly when the other player is connected |
| ServerProperties.RestoreSends | game_server/server.cpp:237-253 | the game state goes to the reconnected player first, then a notice to the opponent only when the opponent is connected |
| ServerProperties.TurnGuard | game_server/server.cpp:331-342 | a sender outside a full lobby is ignored, a sender out of turn gets exactly "Not your turn yet.", and the table changes only for the player to move |
| ServerMoves.FindCardFirst | game_server/server.cpp:353-356 | the search returns the first card with the played text |
| ServerMoves.RecordKeepsCurrent | game_server/server.cpp:406-417 | rewriting the hands, pile size and deck size keeps the recorded current player |
| ServerMoves.MoveCardSpec | game_server/server.cpp:382-404 | the played card goes onto the pile and leaves the hand at its position; a seven moves up to two cards from the back of the deck to the opponent, any other card leaves deck and opponent alone |
| ServerMoves.MoveCardConserves | game_server/server.cpp:382-404 | playing a card loses or invents no card across deck, pile and both hands |
| ServerMoves.PlayOnSpec | game_server/server.cpp:379-417 | a play changes only the deck, the pile and the game_state of the lobby, and the turn is skipped exactly for a seven or an ace |
| ServerMoves.PlayNotInHand | game_server/server.cpp:358-365 | a card text the mover does not hold gets exactly one "You do not have this card in your hand." error and nothing else changes |
| ServerMoves.PlayMismatch | game_server/server.cpp:367-377 | a held card that matches neither the suit nor the value of the top discard gets exactly one "Invalid move…" error and nothing else changes |
| ServerMoves.WinSpec | game_server/server.cpp:422-447 | a win removes exactly that lobby and both its players, and sends the same game_over naming the winner to player 1, then player 2 |
| ServerMoves.GameOverFields | game_server/server.cpp:423-426 | the game_over message has exactly type, winner and message, reading back as written |
| ServerMoves.PlayAccepted | game_server/server.cpp:353-399 | a held, matching card is accepted |
| ServerMoves.AcceptWins | game_server/server.cpp:422 | playing the last card of the hand wins |
| ServerMoves.AcceptAdvances | game_server/server.cpp:399-461 | any other accepted play records the table and notifies the opponent with player_played_card |
| ServerMoves.AdvanceSpec | game_server/server.cpp:406-417 | after a move that does not win only that lobby and the two hands change |
| ServerMoves.AdvanceTurn | game_server/server.cpp:450-454 | the turn passes to the opponent, except after a seven or an ace, when it stays with the mover |
| ServerMoves.AdvanceSends | game_server/server.cpp:456-461 | the opponent is told of the move first, then both players get the state update |
| ServerMoves.DrawRefused | game_server/server.cpp:485-491 | a draw from an empty deck with at most one discard gets exactly one "Not enough cards in discard pile to refill deck." error and nothing else changes |
| ServerMoves.DrawRefills | game_server/server.cpp:469-519 | otherwise the deck is refilled if empty and the card is drawn from it |
| ServerMoves.DrawOnSpec | game_server/server.cpp:496-510 | the draw moves the deck's back card to the end of the mover's hand, never skips the turn, and loses no card |
| ServerValid.ClocksKeepValid | game_server/server.cpp:319-329 | changing only players' addresses and clocks keeps the server invariant (each lobby holds exactly the 32 standard cards, the player to move sits in it, no name sits twice) |
| ServerValid.RejoinValid | game_server/server.cpp:226-235 | marking a seated player connected at a new address and clock keeps the invariant |
| ServerValid.RestoreValid | game_server/server.cpp:219-256 | the reconnection proper keeps the invariant |
| ServerValid.ReconnectValid | game_server/server.cpp:209-256 | handle_reconnection keeps the invariant on every path |
| ServerValid.HeartbeatValid | game_server/server.cpp:316-330 | the heartbeat branch keeps the invariant |
| ServerValid.AddValid | game_server/server.cpp:280-281 | a new record under an unknown name keeps the invariant and seats the name nowhere |
| ServerValid.DealtLobby | game_server/lobby.cpp:3-27 | dealing a lobby with nothing dealt yet from a full deck keeps both seats, leaves a top card, puts exactly the 32 standard cards on the table and puts player 1 to move |
| ServerValid.JoinNewValid | game_server/server.cpp:66-72 | appending a new lobby for the player keeps the invariant |
| ServerValid.SeatDealtValid | game_server/server.cpp:48-61 | filling an open lobby and dealing it keeps the invariant |
| ServerValid.JoinOpenValid | game_server/server.cpp:41-63 | joining the first open lobby keeps the invariant |
| ServerValid.JoinValid | game_server/server.cpp:37-73 | find_or_create_lobby keeps the invariant |
| ServerValid.RegisterValid | game_server/server.cpp:278-315 | registering a new name keeps the invariant |
| ServerValid.ConnectValid | game_server/server.cpp:260-315 | the connect branch keeps the invariant |
| ServerValid.WinValid | game_server/server.cpp:422-447 | removing a won lobby and its players keeps the invariant for the rest |
| ServerValid.RetableValid | game_server/server.cpp:399-417 | a lobby with a new table that still holds the 32 standard cards and a seated current player keeps the invariant |
| ServerValid.AdvanceValid | game_server/server.cpp:450-461 | a move that does not win and conserves the cards keeps the invariant |
| ServerValid.PlayOnConserves | game_server/server.cpp:379-404 | a play loses or invents no card of the lobby |
| ServerValid.AcceptValid | game_server/server.cpp:379-461 | an accepted play keeps the invariant |
| ServerValid.PlayTurnValid | game_server/server.cpp:348-461 | play_card after the turn check keeps the invariant |
| ServerValid.DrawConserves | game_server/server.cpp:469-510 | a refill and draw lose or invent no card and keep the recorded current player |
| ServerValid.DrawTurnValid | game_server/server.cpp:465-519 | draw_card after the turn check keeps the invariant |
| ServerValid.DrawMadeValid | game_server/server.cpp:494-519 | a draw that is not refused keeps the invariant |
| ServerValid.TakeTurnValid | game_server/server.cpp:331-532 | the play_card / draw_card branch keeps the invariant |
| ServerValid.HandleMessageValid | game_server/server.cpp:258-534 | handle_message keeps the invariant whenever it does not throw |
| ServerValid.HandleDatagramValid | game_server/server.cpp:594-605 | every datagram the receive loop handles, including one that throws, keeps the invariant |
| ServerSweep.MarkIfGoneSpec | game_server/server.cpp:130-157 | the short check marks a seat's player disconnected exactly when they are unseen for more than 10 s, changes nothing else, and sends one player_disconnected notice exactly when it newly marks them and the other seat holds a connected player |
| ServerSweep.ShortChecksSpec | game_server/server.cpp:129-157 | both short checks together mark the players as Marked says and only append to what was sent |
| ServerSweep.SweepDeletes | game_server/server.cpp:123-205 | a lobby is deleted exactly when its lone player is unseen for more than 10 s, or either player of a full lobby for more than 60 s |
| ServerSweep.SweepPlayers | game_server/server.cpp:182-204 | a deleted lobby's players are erased, a kept lobby's players are only marked, and sends are only appended |
| ServerSweep.SweepFlagsOnly | game_server/server.cpp:123-205 | the sweep of one lobby changes no record but its disconnected flag |
| ServerSweep.SweepEndsGame | game_server/server.cpp:160-189 | when a full lobby is deleted, the player not unseen for 60 s gets the game_over "Opponent was disconnected for too long" exactly when still connected |
| ServerSweep.AgreesKeepsLobby | game_server/server.cpp:123-205 | what the sweep decides for a lobby depends only on the records of the players it seats |
| ServerSweep.KeptLobby | game_server/server.cpp:123-205 | a lobby the sweep keeps stays shaped, and keeps the server invariant if it had it |
| ServerSweep.PassValid | game_server/server.cpp:123-205 | one lobby's pass of the loop keeps the server invariant, without that lobby when it is deleted |
| ServerSweep.SweepAllValid | game_server/server.cpp:123-205 | the whole loop over the lobbies keeps the server invariant |
| ServerSweep.CheckDisconnectionsFormed | game_server/server.cpp:116-207 | one run of check_disconnections keeps every seat known and no name in two lobbies |
| ServerSweep.CheckDisconnectionsValid | game_server/server.cpp:116-207 | one run of check_disconnections keeps the server invariant |
| ServerSweep.SweepAllKept | game_server/server.cpp:123-205 | the sweep keeps exactly the lobbies that are not abandoned, in their order |
| Server.FindCardIn | game_server/server.cpp:353-356 | the search loop returns the first card of the hand whose text is the played text, and None exactly when no card has that text |
| Server.DrawPenalty | game_server/server.cpp:385-390 | the seven's loop moves min(n, deck size) cards, one at a time from the back of the deck, onto the end of the opponent's hand, as DrawUpTo says |
| Server.PlayCardOn | game_server/server.cpp:379-417 | the accepted play moves the card to the top of the discard pile, gives the opponent up to two deck cards on a seven, records the top card, both hands and both sizes in the game state, and keeps the turn on a seven or an ace, as PlayOn says |
| Server.FirstOpenLobby | game_server/server.cpp:41-42 | the search loop finds the first lobby with an empty second seat, and None when every lobby is full |
| Server.FindOrCreateLobby | game_server/server.cpp:37-73 | the player joins the first open lobby, dealing the game when it then fills, or else gets a new lobby of their own, as JoinLobby says |
| Server.FillOpen | game_server/server.cpp:41-63 | joining the first open lobby `i` gives the JoinLobby result, and that result names lobby `i` |
| Server.Acknowledge | game_server/server.cpp:286-315 | the new player gets a connect_ack, and when their lobby is full the game state is then sent to both players |
| Server.RegisterReady | game_server/server.cpp:278-284 | a freshly registered, connected player without cards can be seated: every seat stays known and the joined lobby is well shaped |
| Server.MarkOne | game_server/server.cpp:130-157 | the short check on one seat computes what MarkIfGone states |
| Server.LongCheck | game_server/server.cpp:159-203 | a full lobby with a player marked disconnected and unseen for more than 60 s erases both players and tells the connected opponent the game was abandoned; otherwise nothing changes |
| Server.SweepOne | game_server/server.cpp:123-205 | one pass of the loop body computes what SweepLobby states |
| Server.SweepStart | game_server/server.cpp:123-126 | before the first pass, the loop state is on its way to the whole sweep |
| Server.SweepStep | game_server/server.cpp:201-204 | one pass, erasing a deleted lobby in place and otherwise stepping past it, keeps the loop on its way to the whole sweep |
| Server.SweepDone | game_server/server.cpp:123-205 | the loop's end state is the whole sweep |
| Server.SweepLobbies | game_server/server.cpp:123-205 | the loop over the lobbies, with erase in place, leaves exactly what SweepAll states |
| Server.GameServer.constructor | game_server/server.cpp:3-35 | a new server holds no lobbies, no players and has sent nothing, and the server invariant holds |
| Server.GameServer.FindPlayerLobby | game_server/server.cpp:75-83 | the first lobby seating the name, as LobbyOf (whose properties ServerRules.LobbyOfSpec states) |
| Server.GameServer.HandleReconnection | game_server/server.cpp:209-256 | the new state is what Reconnect states |
| Server.GameServer.RestoreAt | game_server/server.cpp:219-256 | the reconnection in a full lobby gives what Restore states |
| Server.GameServer.RegisterNewPlayer | game_server/server.cpp:278-315 | registering a new name gives what RegisterPlayer states |
| Server.GameServer.RegisterWithDeck | game_server/server.cpp:280-315 | the same, once the shuffled deck is known |
| Server.GameServer.HandleConnect | game_server/server.cpp:260-315 | the connect branch gives what Connect states |
| Server.GameServer.HandleHeartbeat | game_server/server.cpp:316-330 | the heartbeat branch gives what Heartbeat states |
| Server.GameServer.PlayCard | game_server/server.cpp:348-461 | play_card after the turn check gives what PlayTurn states |
| Server.GameServer.PlayFound | game_server/server.cpp:358-377 | once the card is found, the play gives what PlayMatching states |
| Server.GameServer.AcceptPlay | game_server/server.cpp:379-461 | an accepted play gives what Accept states |
| Server.GameServer.EndGame | game_server/server.cpp:422-447 | the win gives what Win states |
| Server.GameServer.RecordMove | game_server/server.cpp:450-461 | a move that does not end the game gives what Advance states |
| Server.GameServer.DrawCard | game_server/server.cpp:465-527 | draw_card after the turn check gives what DrawTurn states |
| Server.GameServer.TakeTurn | game_server/server.cpp:331-532 | the play_card and draw_card branches succeed exactly when no field they read is missing, and then give what ServerRules.TakeTurn states; a failure changes nothing |
| Server.GameServer.HandleMessage | game_server/server.cpp:258-534 | the dispatch succeeds exactly when no field its branch reads is missing, and then gives what ServerRules.HandleMessage states; a failure changes nothing |
| Server.GameServer.CheckDisconnections | game_server/server.cpp:116-207 | the sweep gives what ServerRules.CheckDisconnections states and keeps the server invariant |
| Server.GameServer.ReceiveDatagram | game_server/server.cpp:584-606 | an empty read changes nothing; otherwise the datagram is parsed and handled as HandleDatagram states, and the server invariant is kept |
| ClientSession.Validate | client/network_client.py:25-45 | a message is allowed exactly when it is not a connect or connect_ack during a game and not a play_card or draw_card before the game or while the opponent is away; the reason is empty exactly when it is allowed |
| ClientSession.CloseSession | client/network_client.py:199-225 | the close on a session value, whose drain loop empties the queue one entry at a time, ends in the state CloseStep gives (ClientProperties.CloseSpec) |
| ClientSession.RetrySession | client/network_client.py:236-243 | the first part of a reconnect attempt gives the state RetryStep describes (ClientProperties.RetryShape) |
| ClientSession.RetryStops | client/network_client.py:232-243 | the close inside a reconnect attempt clears `running`, so the retry loop cannot make a second pass, and it leaves the counter as it was |
| ClientSession.DisconnectSession | client/network_client.py:227-272 | the retry loop on a session value returns the state and truth value DisconnectStep gives |
| ClientSession.NetworkClient.constructor | client/network_client.py:9-23 | a new client has no socket or address, stopped loops, no game, a zero retry counter and an empty queue |
| ClientSession.NetworkClient.SendMessage | client/network_client.py:89-102 | send_message changes the client as SendStep states (ClientProperties.SendRefused, SendDelivered) |
| ClientSession.NetworkClient.Close | client/network_client.py:199-225 | close changes the client as CloseStep states |
| ClientSession.NetworkClient.HandleInvalidMessage | client/network_client.py:165-172 | the `unknown` entry and then close, as InvalidStep states |
| ClientSession.NetworkClient.SendHeartbeat | client/network_client.py:79-87 | one heartbeat pass, as HeartbeatStep states |
| ClientSession.NetworkClient.HandleDisconnect | client/network_client.py:227-272 | the new state and the returned truth value are what DisconnectStep gives |
| ClientSession.NetworkClient.Process | client/network_client.py:130-157 | the if/elif chain on an accepted message, as ProcessStep states |
| ClientSession.NetworkClient.ProcessRest | client/network_client.py:145-157 | the chain from player_disconnected on, as ProcessRestStep states |
| ClientSession.NetworkClient.Acknowledge | client/network_client.py:130-135 | the connect_ack branch, as AckStep states |
| ClientSession.NetworkClient.ReceiveMessage | client/network_client.py:104-163 | one pass of the receive loop gives the state, and whether the loop goes on, that ReceiveStep gives |
| ClientSession.NetworkClient.GetNextMessage | client/network_client.py:174-178 | the oldest queue entry and the rest of the queue, or None on an empty queue, as NextStep states |
| ClientSession.NetworkClient.Connect | client/network_client.py:47-77 | connect closes an open socket, then opens a new one and sends the connect message, as ConnectStep states |
| ClientSession.NetworkClient.Open | client/network_client.py:56-61 | the new socket, server address and name, with the loops running and the flags cleared, as OpenStep states |
| ClientSession.NetworkClient.PlayCard | client/network_client.py:180-188 | play_card changes the client as PlayCardStep states |
| ClientSession.NetworkClient.DrawCard | client/network_client.py:190-197 | draw_card changes the client as DrawCardStep states |
| ClientProperties.SendChangesOnlyQueueAndOutbox | client/network_client.py:89-102 | send_message changes only the queue and what was sent, and nothing at all without a socket and an address |
| ClientProperties.SendRefused | client/network_client.py:93-96 | a message the validator refuses is not sent, and exactly one error entry with the reason joins the queue |
| ClientProperties.SendDelivered | client/network_client.py:98-99 | a message the validator accepts goes to the server address once, and the queue is unchanged |
| ClientProperties.NoActionWhileWaiting | client/network_client.py:180-197 | while the opponent is away, play_card and draw_card change nothing |
| ClientProperties.ActionBeforeStartRefused | client/network_client.py:34-36 | before the game starts, play_card and draw_card only queue the "before game starts" error |
| ClientProperties.ActionDuringGameSent | client/network_client.py:180-197 | during a game with the opponent present, play_card and draw_card send their message to the server and change nothing else |
| ClientProperties.HeartbeatSends | client/network_client.py:79-87 | a heartbeat pass sends one heartbeat exactly when the loop runs, the client is connected and has a socket and an address, and otherwise changes nothing |
| ClientProperties.CloseSpec | client/network_client.py:199-225 | after close the loops are stopped, the socket is gone, the client is neither connected nor waiting and the queue is empty; a disconnect message is sent only on an open socket, and the game flag, counter, name and address are kept |
| ClientProperties.InvalidIsClose | client/network_client.py:165-172 | the `unknown` entry is drained again by the close that follows, so handling an invalid message is the same as closing |
| ClientProperties.BranchOfSpec | client/network_client.py:130-157 | each branch of the receive chain is taken for exactly one message type |
| ClientProperties.ReceiveStopped | client/network_client.py:105-108 | without `running` or without a socket the receive loop ends and nothing changes |
| ClientProperties.ReceiveQueues | client/network_client.py:127-144 | an accepted message of a handled type is queued once, followed only by name_taken's own entry |
| ClientProperties.ProcessQueues | client/network_client.py:130-157 | the chain adds to the queue only name_taken's own entry |
| ClientProperties.ReceiveRejects | client/network_client.py:111-125 | a JSONDecodeError, a value that is not an object with a type, or a message the validator refuses closes the client and ends the loop |
| ClientProperties.ReceiveUnhandled | client/network_client.py:156-157 | an accepted message of a type the chain does not handle closes the client and ends the loop |
| ClientProperties.ReceiveConnectAck | client/network_client.py:130-135 | connect_ack connects and sets waiting as the message says; when not waiting it stores the message as the game state and starts the game, and otherwise keeps both |
| ClientProperties.ReceiveStateUpdate | client/network_client.py:136-140 | game_state_update connects, clears waiting, stores the message and starts the game |
| ClientProperties.ReceiveEnds | client/network_client.py:141-153 | name_taken and game_over stop the loops and disconnect; game_over also ends the game and name_taken keeps the game flag |
| ClientProperties.ReceiveOpponent | client/network_client.py:145-149 | player_disconnected sets waiting and keeps the game state; player_reconnected clears waiting and stores the message; neither changes `connected` |
| ClientProperties.RetryShape | client/network_client.py:236-243 | a reconnect attempt stops the loops, opens a new socket, empties the queue up to close's own entries, keeps the counter, game state and game flag, and sends a disconnect (on an open socket) and a connect (only before a game) |
| ClientProperties.DisconnectWhenStopped | client/network_client.py:229-230 | when not running, _handle_disconnect returns False and changes nothing |
| ClientProperties.DisconnectRecovers | client/network_client.py:246-255 | a connect_ack or game_state_update reply reconnects, resets the counter to 0, stores and queues the reply and returns True |
| ClientProperties.DisconnectFails | client/network_client.py:256-272 | a failed attempt adds one to the counter and returns False, and the `error` entry is queued exactly when the counter reaches the limit |
| ClientProperties.DisconnectAtLimit | client/network_client.py:232-272 | with the counter at the limit no attempt is made: only the `error` entry is queued, `connected` is cleared and False is returned |
| ClientProperties.ReconnectDuringGameSendsNoConnect | client/network_client.py:31-32 | during a game the reconnect attempt's connect message is refused by the validator, so only the disconnect message reaches the server |
| ClientProperties.ReconnectEndsReceiving | client/network_client.py:159-163 | after a successful reconnect from the receive loop the client is connected but the loop does not go round again, because the reconnect's close stopped it |
| ClientProperties.DisconnectKeepsValid | client/network_client.py:227-272 | _handle_disconnect keeps the client invariant: the counter within its limit, and a socket or running loops only with a server address |
| ClientProperties.ReceiveKeepsValid | client/network_client.py:104-163 | one receive pass keeps the client invariant |
| ClientProperties.ProcessKeepsValid | client/network_client.py:130-157 | the chain keeps the client invariant |
| ClientProperties.ApplyKeepsValid | client/network_client.py:47-272 | every public call and loop pass keeps the client invariant |
| ClientProperties.RunKeepsValid | client/network_client.py:47-272 | any sequence of calls keeps the client invariant |
| ClientProperties.AttemptsBounded | client/network_client.py:20-21 | from a new client, whatever the calls and the network do, the retry counter never passes 10 |
| ClientProperties.DrainOldestFirst | client/network_client.py:174-178 | successive get_next_message calls hand out the queue oldest first |
| ClientProperties.NextOnEmpty | client/network_client.py:177-178 | on an empty queue get_next_message returns None and changes nothing |
| ClientProperties.ReceivedInOrder | client/network_client.py:127-128 | an accepted message comes out of the queue right after everything queued before it |
| ClientRules.ChosenSuitDoesNotForbid | client/player.py:44-52 | a card is legal exactly when it matches the chosen suit or, chosen suit or not, the top discard's suit or rank, or is a queen; a queen is always legal |
| ClientRules.FirstIndex | client/player.py:46 | the position of the first occurrence of a card the hand holds |
| ClientRules.RemoveFirstCuts | client/player.py:46-50 | list.remove keeps the order of the other cards: those before the first occurrence, then those after it |
| ClientRules.RemoveFirstCounts | client/player.py:46-50 | list.remove removes exactly one copy of the card and shortens the hand by one |
| ClientRules.PlaySpec | client/player.py:31-52 | play_card returns False exactly for an illegal card, True exactly for a legal card in the hand, which then loses one copy of it, and raises ValueError for a legal card not in the hand; only the True case changes the hand |
| ClientRules.Player.constructor | client/player.py:13-20 | the new player has the given name and an empty hand |
| ClientRules.Player.DrawCard | client/player.py:22-29 | a card is appended to the hand, and None changes nothing |
| ClientRules.Player.Remove | client/player.py:46-50 | a card in the hand is removed at its first occurrence; otherwise ValueError and the hand is unchanged |
| ClientRules.Player.PlayCard | client/player.py:31-52 | the result and the new hand are those PlayResult and HandAfterPlay give (PlaySpec), and the name is kept |
| ClientRules.Player.HasWon | client/player.py:54-60 | true exactly when the hand is empty |
| ClientRules.Player.GetHandSize | client/player.py:62-68 | zero exactly when the player has won |
| ClientRules.Cut | client/deck.py:31-32 | Python's slice index is clipped to the list |
| ClientRules.DealSplits | client/deck.py:22-33 | the dealt cards followed by those left are the old deck; a non-negative request deals min(n, size) cards, a negative one leaves min(-n, size) |
| ClientRules.DrawIsDealOne | client/deck.py:35-43 | drawing takes the front card, like dealing one, and gives None exactly on an empty deck |
| ClientRules.TopAfterAdd | client/deck.py:45-59 | the card last added to the discard pile is its top, and the top is None exactly on an empty pile |
| ClientRules.Deck.constructor | client/deck.py:8-16 | a new deck holds the 32 cards, ranks outermost and suits innermost, and no discards |
| ClientRules.Deck.Shuffle | client/deck.py:18-20 | the shuffled deck is a permutation of the old one, and the discard pile is kept |
| ClientRules.Deck.Deal | client/deck.py:22-33 | the dealt cards are the front slice and the deck keeps the rest, together the old deck |
| ClientRules.Deck.DrawCard | client/deck.py:35-43 | the drawn card and the new deck are what Draw gives |
| ClientRules.Deck.AddToDiscard | client/deck.py:45-51 | the card is appended to the discard pile and the deck is kept |
| ClientRules.Deck.GetTopDiscard | client/deck.py:53-59 | the last card of the discard pile, or None on an empty pile |
| ClientRules.NewDeckIsComplete | client/deck.py:8-16 | a new client deck holds each of the 32 standard cards exactly once |

## Left out

- Sockets are not modelled: socket creation, `bind`, the WSA setup and `CLOSE_SOCKET`, on both sides. This is operating-system I/O. A datagram received is a method input, and a datagram sent is an outbox entry.
- The server's `send_to_client` serialises its object and calls `sendto`. The outbox keeps the object, and its bytes are `SerializeObject` of it. A `sendto` failure is not modelled.
- The client's `sendto` exception path, which prints and clears `connected`, is not modelled, and neither is `json.dumps`. A packet carries the message value.
- Threads are not modelled. That covers the server mutex, the detached thread that runs check_disconnections, the client's receive and heartbeat threads, `sleep` and the endless `while running` loops. One loop pass is one method call.
- The 4096-byte receive buffers are not modelled. A datagram is as long as its text, so the truncation of longer datagrams is left out.
- `json.loads` and UTF-8 decoding are replaced by the `Received` input, which is a decoded value, a JSON decode error, or a failure that raises in the receive loop. JSON floating-point numbers are not modelled.
- Clocks are not modelled: `steady_clock` becomes an integer `now` in seconds.
- Randomness is not modelled directly. `std::shuffle` with `mt19937` and `random.shuffle` become a Fisher-Yates shuffle driven by a roll sequence, so the model states only that the result is some permutation of the cards.
- Raw pointers, `new`/`delete` and the server's destructor and `stop()` are not modelled. Lobbies are a sequence and players a map keyed by name, so two lobby seats never alias one record.
- `game_server::is_reconnection_valid` (game_server/server.cpp:85) is never called by the server, and is not part of this model.
- The tkinter UI, `main.cpp` and `print`/`std::cout` logging are not part of this model.
- `invalid_message_count`, which the client only resets and never reads, is not modelled.
- `reconnect_delay` and `time.sleep` between reconnect attempts are not modelled.
- ClientSession.NetworkClient.ReceiveMessage: `waiting_for_player` is stored as the Python truth value of the message's field. When the field is truthy but not a boolean, the original object is not kept.
- ClientSession.NetworkClient.Close: the drain loop and the retry loop of `_handle_disconnect` run on a `Session` value in module-level methods (CloseSession, DisconnectSession), and the class method then stores the result. The class methods therefore do not show the field updates one by one.
- ClientRules.Player.Remove: `list.remove` compares `Card` objects by identity, because the class defines no `__eq__`. The model compares cards by value, so a hand holding an equal but distinct card object behaves differently here.
- ServerRules.Current: a missing `current_player` reads as "". The non-const `operator[]` also inserts that key into `game_state`, and the model does not show the insertion.
- Integer widths are not modelled: the server indexes its deck cards with C++ `int` and `size_t`. At most 32 cards are ever held, so widths and wrap-around are not modelled.

## Findings

| source | as written | input that shows it | evidently intended | confidence | as-written member | corrected member |
|---|---|---|---|---|---|---|
| game_server/server.cpp:260-281 | the connect branch first looks up the name exactly as received, to decide on reconnection or name_taken. It then registers the player under `remove_quotes` of that name, replacing any record already filed there. | the datagram `{"type":"connect","name":""bob""}`, sent while "bob" is connected. Its name field reads back as `"bob"` with quotes, so the lookup misses, and a second "bob" replaces the connected one. | every check is made on the name the player is then registered under, so a connected name is always answered with name_taken | not executed | ServerProperties.ConnectAsWrittenReregisters | ServerProperties.ConnectSpec |
