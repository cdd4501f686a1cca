/**
 * The server's players and lobbies (game_server/player.h, lobby.h) and the
 * deal that starts a game (game_server/lobby.cpp). A lobby names its two
 * seats' players; the players themselves, with their hands, are kept by
 * name in the server's player table.
 */
module ServerLobby {
  import opened Wrappers
  import opened Cards
  import opened SimpleJson
  import opened ServerDeck

  /** A sockaddr_in, as an opaque identifier of the peer. */
  type Address = int

  /** Player: `lastSeen` is the steady-clock reading in whole seconds. */
  datatype Player = Player(name: string, address: Address, lastSeen: int, hand: seq<Card>, disconnected: bool)

  /** Lobby: the two seats (None for a null pointer), the discard pile with
      its top at the end, the deck's cards, the game_state object and the
      pause flag. */
  datatype Lobby = Lobby(
    player1: Option<string>,
    player2: Option<string>,
    discardPile: seq<Card>,
    deck: seq<Card>,
    gameState: JsonObject,
    paused: bool)

  /** Lobby::is_full. */
  predicate IsFull(l: Lobby)
  {
    l.player1.Some? && l.player2.Some?
  }

  /** `new Lobby()` with its first player seated: the deck member is
      default-constructed, so it already holds a fresh shuffled deck, given
      here as `deck` (a NewDeck). */
  function NewLobby(name: string, deck: seq<Card>): (l: Lobby)
    ensures l.player1 == Some(name) && l.player2 == None && !IsFull(l)
    ensures l.deck == deck && l.discardPile == []
  {
    Lobby(Some(name), None, [], deck, map[], false)
  }

  /** The cards `n` successive draw_card calls take off `d`, in drawing order. */
  function TopCards(d: seq<Card>, n: nat): (r: seq<Card>)
    requires n <= |d|
    ensures |r| == n
    ensures forall j :: 0 <= j < n ==> r[j] == d[|d| - 1 - j]
    decreases n
  {
    if n == 0 then [] else [d[|d| - 1]] + TopCards(d[..|d| - 1], n - 1)
  }

  /** Drawing one more card appends the next card from the back. */
  lemma TopCardsSnoc(d: seq<Card>, n: nat)
    requires n < |d|
    ensures TopCards(d, n + 1) == TopCards(d, n) + [d[|d| - 1 - n]]
  {
  }

  /** Drawing from the first `k` cards of `d` takes card k-1 and leaves the first k-1. */
  lemma DrawFromPrefix(d: seq<Card>, k: nat)
    requires 0 < k <= |d|
    ensures Draw(d[..k]) == Ok((d[k - 1], d[..k - 1]))
  {
    assert d[..k][..k - 1] == d[..k - 1];
  }

  /** The cards drawn and the cards left are the deck, redistributed. */
  lemma TopCardsSplit(d: seq<Card>, n: nat)
    requires n <= |d|
    ensures multiset(d) == multiset(d[..|d| - n]) + multiset(TopCards(d, n))
  {
    var r := TopCards(d, n);
    var tail := d[|d| - n..];
    assert d == d[..|d| - n] + tail;
    assert multiset(tail) == multiset(r) by {
      ReversedSameCards(tail, r);
    }
  }

  lemma {:induction false} ReversedSameCards(s: seq<Card>, r: seq<Card>)
    requires |r| == |s| && forall j :: 0 <= j < |s| ==> r[j] == s[|s| - 1 - j]
    ensures multiset(s) == multiset(r)
    decreases |s|
  {
    if s != [] {
      var s' := s[1..];
      var r' := r[..|r| - 1];
      assert s == [s[0]] + s';
      assert r == r' + [r[|r| - 1]];
      ReversedSameCards(s', r');
    }
  }

  /** The current_player_hand object: each seat's hand as {suit, value} maps. */
  function HandsObject(n1: string, h1: seq<Card>, n2: string, h2: seq<Card>): NestedObject
  {
    map[n1 := ConvertHandToNested(h1)][n2 := ConvertHandToNested(h2)]
  }

  /** The game_state assignments at the end of initialize_game. */
  function DealtState(gs: JsonObject, n1: string, n2: string, hands: NestedObject, deckSize: nat, discard: seq<Card>): JsonObject
    requires discard != []
  {
    var g1 := WithArray(gs, "players", [n1, n2]);
    var g2 := WithString(g1, "current_player", n1);
    var g3 := WithInt(g2, "deck_size", deckSize);
    var g4 := WithInt(g3, "discard_pile", |discard|);
    var g5 := WithCard(g4, "top_card", discard[|discard| - 1]);
    WithNested(g5, "current_player_hand", hands)
  }

  /** The cards on the table: deck, discard pile and the two seats' hands. */
  datatype Table = Table(deck: seq<Card>, discard: seq<Card>, hand1: seq<Card>, hand2: seq<Card>)

  /** The cards of initialize_game on a deck freshly built as `d`: four
      cards from its back to player 1, the next four to player 2, the next
      one onto the discard pile. */
  function DealCards(d: seq<Card>, discard: seq<Card>, h1: seq<Card>, h2: seq<Card>): Table
    requires |d| == DeckSize
  {
    Table(d[..23], discard + [d[23]], h1 + TopCards(d, 4), h2 + TopCards(d[..28], 4))
  }

  /** The outcome of Lobby::initialize_game once its deck holds `d`: the
      dealt cards, and the game_state fields recorded from them. */
  function DealFrom(lobby: Lobby, p1: Player, p2: Player, d: seq<Card>): (Lobby, Player, Player)
    requires |d| == DeckSize
  {
    var t := DealCards(d, lobby.discardPile, p1.hand, p2.hand);
    var state := DealtState(lobby.gameState, p1.name, p2.name, HandsObject(p1.name, t.hand1, p2.name, t.hand2), |t.deck|, t.discard);
    (lobby.(deck := t.deck, discardPile := t.discard, gameState := state), p1.(hand := t.hand1), p2.(hand := t.hand2))
  }

  /** The outcome of Lobby::initialize_game, the new deck shuffled by `rolls`. */
  function Deal(lobby: Lobby, p1: Player, p2: Player, rolls: seq<nat>): (Lobby, Player, Player)
  {
    DealFrom(lobby, p1, p2, NewDeck(rolls))
  }

  /** Lobby::initialize_game, for a full lobby whose seats hold `p1` and `p2`
      (the code reads both players' names unconditionally): a new deck, then
      the deal from it. */
  method InitializeGame(lobby: Lobby, p1: Player, p2: Player, rolls: seq<nat>) returns (l: Lobby, q1: Player, q2: Player)
    requires lobby.player1 == Some(p1.name) && lobby.player2 == Some(p2.name)
    ensures (l, q1, q2) == Deal(lobby, p1, p2, rolls)
  {
    var deck := new Deck(rolls);
    l, q1, q2 := DealFromDeck(lobby, p1, p2, deck);
  }

  /** The body of Lobby::initialize_game after the deck is rebuilt: the two
      four-card loops, the first discard and the game_state assignments. */
  method DealFromDeck(lobby: Lobby, p1: Player, p2: Player, deck: Deck) returns (l: Lobby, q1: Player, q2: Player)
    requires |deck.cards| == DeckSize
    modifies deck
    ensures (l, q1, q2) == DealFrom(lobby, p1, p2, old(deck.cards))
  {
    ghost var d := deck.cards;
    var h1 := p1.hand;
    for i := 0 to 4
      invariant deck.cards == d[..32 - i]
      invariant h1 == p1.hand + TopCards(d, i)
    {
      TopCardsSnoc(d, i);
      DrawFromPrefix(d, 32 - i);
      var c := deck.DrawCard();
      if c.Ok? {
        h1 := h1 + [c.value];
      }
    }
    ghost var d2 := d[..28];
    var h2 := p2.hand;
    for i := 0 to 4
      invariant deck.cards == d2[..28 - i]
      invariant h2 == p2.hand + TopCards(d2, i)
    {
      TopCardsSnoc(d2, i);
      DrawFromPrefix(d2, 28 - i);
      var c := deck.DrawCard();
      if c.Ok? {
        h2 := h2 + [c.value];
      }
    }
    var discard := lobby.discardPile;
    DrawFromPrefix(d, 24);
    var c := deck.DrawCard();
    if c.Ok? {
      discard := discard + [c.value];
    }
    assert Table(deck.cards, discard, h1, h2) == DealCards(d, lobby.discardPile, p1.hand, p2.hand);
    var state := DealtState(lobby.gameState, p1.name, p2.name, HandsObject(p1.name, h1, p2.name, h2), deck.Size(), discard);
    l := lobby.(deck := deck.cards, discardPile := discard, gameState := state);
    q1 := p1.(hand := h1);
    q2 := p2.(hand := h2);
  }

  /** The cards of a lobby: deck, discard pile and both seats' hands. */
  function TableCards(deck: seq<Card>, discard: seq<Card>, h1: seq<Card>, h2: seq<Card>): multiset<Card>
  {
    multiset(deck) + multiset(discard) + multiset(h1) + multiset(h2)
  }

  /** Dealing from a 32-card deck leaves 23 in the deck, adds four cards to
      each hand and one to the discard pile, and loses or invents no card. */
  lemma DealCardsConserves(d: seq<Card>, discard: seq<Card>, h1: seq<Card>, h2: seq<Card>)
    requires |d| == DeckSize
    ensures var t := DealCards(d, discard, h1, h2);
      && |t.deck| == 23
      && |t.hand1| == |h1| + 4 && |t.hand2| == |h2| + 4
      && |t.discard| == |discard| + 1
      && TableCards(t.deck, t.discard, t.hand1, t.hand2)
         == multiset(d) + multiset(discard) + multiset(h1) + multiset(h2)
  {
    DealSplit(d, 4, 4);
  }

  /** Taking `n` then `m` cards off the back of `d`, then one more, splits
      its cards into the two drawn runs, that card and the rest. */
  lemma DealSplit(d: seq<Card>, n: nat, m: nat)
    requires n + m < |d|
    ensures var k := |d| - n - m - 1;
      multiset(d) == multiset(d[..k]) + multiset{d[k]} + multiset(TopCards(d[..|d| - n], m)) + multiset(TopCards(d, n))
  {
    var k := |d| - n - m - 1;
    var rest := d[..|d| - n];
    var below := rest[..|rest| - m];
    TopCardsSplit(d, n);
    TopCardsSplit(rest, m);
    assert below == d[..k] + [d[k]];
    calc {
      multiset(d);
      multiset(rest) + multiset(TopCards(d, n));
      multiset(below) + multiset(TopCards(rest, m)) + multiset(TopCards(d, n));
      multiset(d[..k]) + multiset{d[k]} + multiset(TopCards(rest, m)) + multiset(TopCards(d, n));
    }
  }

  /** Dealing adds exactly the 32 standard cards to what the lobby and its
      players held, and leaves 23 cards in the deck. */
  lemma DealConservesCards(lobby: Lobby, p1: Player, p2: Player, rolls: seq<nat>)
    ensures var (l, q1, q2) := Deal(lobby, p1, p2, rolls);
      && |l.deck| == 23
      && |q1.hand| == |p1.hand| + 4 && |q2.hand| == |p2.hand| + 4
      && |l.discardPile| == |lobby.discardPile| + 1
      && TableCards(l.deck, l.discardPile, q1.hand, q2.hand)
         == multiset(SuitMajorDeck()) + multiset(lobby.discardPile) + multiset(p1.hand) + multiset(p2.hand)
  {
    NewDeckIsComplete(rolls);
    DealCardsConserves(NewDeck(rolls), lobby.discardPile, p1.hand, p2.hand);
  }

  /** From empty hands and an empty discard pile, the dealt table holds
      exactly the 32 standard cards. */
  lemma FreshDealIsFullDeck(lobby: Lobby, p1: Player, p2: Player, rolls: seq<nat>)
    requires lobby.discardPile == [] && p1.hand == [] && p2.hand == []
    ensures var (l, q1, q2) := Deal(lobby, p1, p2, rolls);
      && |l.deck| + |l.discardPile| + |q1.hand| + |q2.hand| == DeckSize
      && TableCards(l.deck, l.discardPile, q1.hand, q2.hand) == multiset(SuitMajorDeck())
  {
    DealConservesCards(lobby, p1, p2, rolls);
  }

  /** The game_state after the deal records both players, player 1 to move,
      the actual deck and discard sizes, and the top discard. */
  lemma DealRecordsState(lobby: Lobby, p1: Player, p2: Player, rolls: seq<nat>)
    ensures var (l, _, _) := Deal(lobby, p1, p2, rolls);
      var gs := l.gameState;
      && l.discardPile != []
      && "players" in gs && gs["players"] == SerializeArray([p1.name, p2.name])
      && "current_player" in gs && RemoveQuotes(gs["current_player"]) == p1.name
      && "deck_size" in gs && DecimalValue(gs["deck_size"]) == |l.deck|
      && "discard_pile" in gs && DecimalValue(gs["discard_pile"]) == |l.discardPile|
      && "top_card" in gs && gs["top_card"] == SerializeCard(l.discardPile[|l.discardPile| - 1])
  {
    var (l, q1, q2) := Deal(lobby, p1, p2, rolls);
    DealConservesCards(lobby, p1, p2, rolls);
    NewDeckIsComplete(rolls);
    DealtStateFields(lobby.gameState, p1.name, p2.name, HandsObject(p1.name, q1.hand, p2.name, q2.hand), 23, l.discardPile);
  }

  lemma DealtStateFields(gs: JsonObject, n1: string, n2: string, hands: NestedObject, deckSize: nat, discard: seq<Card>)
    requires discard != []
    ensures var r := DealtState(gs, n1, n2, hands, deckSize, discard);
      && "current_player_hand" in r && r["current_player_hand"] == SerializeNestedObject(hands)
      && "players" in r && r["players"] == SerializeArray([n1, n2])
      && "current_player" in r && RemoveQuotes(r["current_player"]) == n1
      && "deck_size" in r && DecimalValue(r["deck_size"]) == deckSize
      && "discard_pile" in r && DecimalValue(r["discard_pile"]) == |discard|
      && "top_card" in r && r["top_card"] == SerializeCard(discard[|discard| - 1])
  {
    var g1 := WithArray(gs, "players", [n1, n2]);
    WithStringReadsBack(g1, "current_player", n1);
    var g2 := WithString(g1, "current_player", n1);
    WithIntReadsBack(g2, "deck_size", deckSize);
    var g3 := WithInt(g2, "deck_size", deckSize);
    WithIntReadsBack(g3, "discard_pile", |discard|);
  }
}
