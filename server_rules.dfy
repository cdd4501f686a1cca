/**
 * The game server's state and rules (game_server/server.cpp, server.h) as
 * functions from one state to the next: the lobbies in order, the player
 * table keyed by name, and the datagrams sent so far. Each lobby seat holds a
 * player's name; that player's record (address, clock reading, hand and
 * disconnection flag) is the table's entry under the name. A datagram sent
 * is an entry (address, object) appended to the outbox; the bytes on the
 * wire are SerializeObject of the object.
 */
module ServerRules {
  import opened Wrappers
  import opened Cards
  import opened SimpleJson
  import opened ServerDeck
  import opened ServerLobby

  /** game_server::SHORT_DISCONNECT_THRESHOLD and LONG_DISCONNECT_THRESHOLD, in seconds. */
  const ShortDisconnectThreshold: int := 10
  const LongDisconnectThreshold: int := 60

  const NameInUse: string := "Player name already in use. Choose a different name."
  const InvalidReconnection: string := "Invalid reconnection attempt."
  const NotYourTurn: string := "Not your turn yet."
  const CardNotInHand: string := "You do not have this card in your hand."
  const InvalidMove: string := "Invalid move. Card must match suit or value of the top card."
  const CannotRefill: string := "Not enough cards in discard pile to refill deck."
  const AbandonedGame: string := "Game Over! Opponent was disconnected for too long"

  /** One send_to_client call. */
  datatype Outgoing = Outgoing(to: Address, msg: JsonObject)

  /** The server's lobbies, its players by name, and what it has sent. */
  datatype State = State(lobbies: seq<Lobby>, players: map<string, Player>, outbox: seq<Outgoing>)

  // ---------------------------------------------------------------------
  // Messages the server builds
  // ---------------------------------------------------------------------

  /** An object with a "type" and one more string field. */
  function Message(kind: string, key: string, text: string): JsonObject
  {
    WithString(WithString(map[], "type", kind), key, text)
  }

  function ErrorMessage(text: string): JsonObject
  {
    Message("error", "message", text)
  }

  /** The reply to a datagram that does not parse or lacks a field the handler reads. */
  function UnknownMessage(): JsonObject
  {
    WithString(map[], "type", "unknown")
  }

  /** player_reconnected / player_disconnected, naming the player. */
  function Notice(kind: string, player: string, text: string): JsonObject
  {
    WithString(WithString(WithString(map[], "type", kind), "player", player), "message", text)
  }

  /** player_played_card / player_drawn_card, naming the mover. */
  function MoveNotice(kind: string, player: string, text: string): JsonObject
  {
    WithString(WithString(WithString(map[], "type", kind), "player_name", player), "message", text)
  }

  function GameOver(winner: string, text: string): JsonObject
  {
    WithString(WithString(WithString(map[], "type", "game_over"), "winner", winner), "message", text)
  }

  // ---------------------------------------------------------------------
  // Seats and the shape of a lobby
  // ---------------------------------------------------------------------

  predicate Seated(l: Lobby, name: string)
  {
    l.player1 == Some(name) || l.player2 == Some(name)
  }

  /** The names in a lobby's seats. */
  function SeatNames(l: Lobby): set<string>
  {
    (if l.player1.Some? then {l.player1.value} else {}) + (if l.player2.Some? then {l.player2.value} else {})
  }

  /** Seat 1 is taken, every seat names a known player, and a full lobby
      seats two different names. */
  predicate SeatsKnown(l: Lobby, players: map<string, Player>)
  {
    && l.player1.Some? && l.player1.value in players
    && (l.player2.Some? ==> l.player2.value in players && l.player2.value != l.player1.value)
  }

  /** What the handlers rely on to stay clear of null and empty-vector
      dereferences: the seats are known, a full lobby has a top card, and a
      lobby with one player seats a connected one (a lone player who
      disconnects is removed with the lobby at once). */
  predicate Shaped(l: Lobby, players: map<string, Player>)
  {
    && SeatsKnown(l, players)
    && (IsFull(l) ==> l.discardPile != [])
    && (!IsFull(l) ==> !players[l.player1.value].disconnected)
  }

  /** No one seated in `a` is seated in `b`. */
  predicate Apart(a: Lobby, b: Lobby)
  {
    && (a.player1.Some? ==> !Seated(b, a.player1.value))
    && (a.player2.Some? ==> !Seated(b, a.player2.value))
  }

  /** No name sits in two lobbies. */
  predicate SeatsDisjoint(lobbies: seq<Lobby>)
  {
    forall i, j :: 0 <= i < |lobbies| && 0 <= j < |lobbies| && i != j ==> Apart(lobbies[i], lobbies[j])
  }

  predicate Formed(lobbies: seq<Lobby>, players: map<string, Player>)
  {
    && (forall i :: 0 <= i < |lobbies| ==> Shaped(lobbies[i], players))
    && SeatsDisjoint(lobbies)
  }

  predicate WellFormed(st: State)
  {
    Formed(st.lobbies, st.players)
  }

  /** The hand of the player in a seat; an empty seat holds no cards. */
  function HandOf(players: map<string, Player>, seat: Option<string>): seq<Card>
  {
    if seat.Some? && seat.value in players then players[seat.value].hand else []
  }

  /** remove_quotes(game_state["current_player"]); the non-const operator[]
      reads a missing key as the empty string. */
  function Current(gs: JsonObject): string
  {
    if "current_player" in gs then RemoveQuotes(gs["current_player"]) else ""
  }

  /** The other seat, as `(lobby->player1 == player) ? lobby->player2 : lobby->player1`. */
  function OtherSeat(l: Lobby, name: string): Option<string>
  {
    if l.player1 == Some(name) then l.player2 else l.player1
  }

  /** The server invariant: every record is filed under its own name; every
      lobby is shaped, and its deck, discard pile and hands hold exactly the
      32 standard cards; in a full lobby the player to move sits in it; in
      a lobby with one player nothing is dealt yet; no name sits twice. */
  predicate LobbyOk(l: Lobby, players: map<string, Player>)
  {
    && Shaped(l, players)
    && TableCards(l.deck, l.discardPile, HandOf(players, l.player1), HandOf(players, l.player2)) == multiset(SuitMajorDeck())
    && (IsFull(l) ==> Seated(l, Current(l.gameState)))
    && (!IsFull(l) ==> l.discardPile == [] && players[l.player1.value].hand == [])
  }

  predicate Valid(st: State)
  {
    && (forall n :: n in st.players ==> st.players[n].name == n)
    && (forall i :: 0 <= i < |st.lobbies| ==> LobbyOk(st.lobbies[i], st.players))
    && SeatsDisjoint(st.lobbies)
  }


  /** Changing only the clocks and addresses of known players (not their
      connection flags) keeps the state well formed. */
  lemma FlagsKeepShape(st: State, players: map<string, Player>)
    requires WellFormed(st)
    requires players.Keys == st.players.Keys
    requires forall n :: n in players ==> players[n].disconnected == st.players[n].disconnected
    ensures WellFormed(st.(players := players))
  {
    forall i | 0 <= i < |st.lobbies| ensures Shaped(st.lobbies[i], players) {
      assert Shaped(st.lobbies[i], st.players);
    }
  }

  // ---------------------------------------------------------------------
  // find_player_lobby and find_or_create_lobby
  // ---------------------------------------------------------------------

  /** find_player_lobby: the first lobby with the name in a seat. */
  function LobbyOf(lobbies: seq<Lobby>, name: string): (r: Option<nat>)
    ensures r.Some? ==> r.value < |lobbies|
  {
    if lobbies == [] then None
    else if Seated(lobbies[0], name) then Some(0)
    else match LobbyOf(lobbies[1..], name)
      case None => None
      case Some(i) => Some(i + 1)
  }

  /** The loop of find_or_create_lobby: the first lobby that is not full. */
  function FirstOpen(lobbies: seq<Lobby>): (r: Option<nat>)
    ensures r.Some? ==> r.value < |lobbies|
  {
    if lobbies == [] then None
    else if !IsFull(lobbies[0]) then Some(0)
    else match FirstOpen(lobbies[1..])
      case None => None
      case Some(i) => Some(i + 1)
  }

  /** find_player_lobby finds the first lobby seating the name, and None
      exactly when no lobby seats it. */
  lemma {:induction false} LobbyOfSpec(lobbies: seq<Lobby>, name: string)
    ensures match LobbyOf(lobbies, name)
      case None => forall k :: 0 <= k < |lobbies| ==> !Seated(lobbies[k], name)
      case Some(i) => Seated(lobbies[i], name) && forall k :: 0 <= k < i ==> !Seated(lobbies[k], name)
  {
    if lobbies != [] {
      LobbyOfSpec(lobbies[1..], name);
    }
  }

  /** The search of find_or_create_lobby stops at the first lobby that is
      not full, and finds none exactly when all are full. */
  lemma {:induction false} FirstOpenSpec(lobbies: seq<Lobby>)
    ensures match FirstOpen(lobbies)
      case None => forall k :: 0 <= k < |lobbies| ==> IsFull(lobbies[k])
      case Some(i) => !IsFull(lobbies[i]) && forall k :: 0 <= k < i ==> IsFull(lobbies[k])
  {
    if lobbies != [] {
      FirstOpenSpec(lobbies[1..]);
    }
  }

  /** What find_or_create_lobby leaves: the lobbies, the players (whose
      hands initialize_game deals to) and the index of the player's lobby. */
  datatype Joined = Joined(lobbies: seq<Lobby>, players: map<string, Player>, index: nat)

  /** A lobby that `name` has just taken a seat in, before the game starts:
      seat 1 if it is free (recording the player as current), else seat 2
      (recording both players, player 1 as current, an empty top card and
      a deck size of 32). */
  function TakeSeat(l: Lobby, name: string): Lobby
  {
    if l.player1.None? then
      l.(player1 := Some(name), gameState := WithString(l.gameState, "current_player", name))
    else
      var g1 := WithArray(l.gameState, "players", [l.player1.value, name]);
      var g2 := WithString(g1, "current_player", l.player1.value);
      var g3 := WithString(g2, "top_card", "");
      l.(player2 := Some(name), gameState := WithInt(g3, "deck_size", 32))
  }

  /** find_or_create_lobby for the registered player `name`: the first lobby
      that is not full takes the player, and is dealt if that fills it;
      with none, a new lobby seating the player is appended. A call builds
      one Deck (the new lobby's, or initialize_game's); `built` is what it
      holds. */
  function JoinLobby(lobbies: seq<Lobby>, players: map<string, Player>, name: string, built: seq<Card>): (r: Joined)
    requires |built| == DeckSize
    requires name in players
    requires forall i :: 0 <= i < |lobbies| ==> SeatsKnown(lobbies[i], players)
    ensures r.index < |r.lobbies|
  {
    match FirstOpen(lobbies)
    case None =>
      Joined(lobbies + [NewLobby(name, built)], players, |lobbies|)
    case Some(i) =>
      var l := TakeSeat(lobbies[i], name);
      if IsFull(l) then
        assert SeatsKnown(lobbies[i], players);
        var n1 := l.player1.value;
        var (l', h1, h2) := DealHands(l, players[n1], players[name], built);
        Joined(lobbies[i := l'], players[n1 := players[n1].(hand := h1)][name := players[name].(hand := h2)], i)
      else
        Joined(lobbies[i := l], players, i)
  }

  /** initialize_game's lobby and the two new hands. */
  function DealHands(l: Lobby, p1: Player, p2: Player, d: seq<Card>): (r: (Lobby, seq<Card>, seq<Card>))
    requires |d| == DeckSize
  {
    var (l', q1, q2) := DealFrom(l, p1, p2, d);
    (l', q1.hand, q2.hand)
  }

  /** initialize_game keeps the seats and leaves a top card. */
  lemma DealKeepsSeats(l: Lobby, p1: Player, p2: Player, d: seq<Card>)
    requires |d| == DeckSize
    ensures var l' := DealHands(l, p1, p2, d).0;
      l'.player1 == l.player1 && l'.player2 == l.player2 && l'.discardPile != []
  {
  }

  /** Seating a known, connected player who sits nowhere keeps the lobbies
      well formed. */
  lemma JoinKeepsShape(st: State, name: string, built: seq<Card>)
    requires |built| == DeckSize
    requires WellFormed(st)
    requires name in st.players && !st.players[name].disconnected
    requires forall i :: 0 <= i < |st.lobbies| ==> !Seated(st.lobbies[i], name)
    ensures forall i :: 0 <= i < |st.lobbies| ==> SeatsKnown(st.lobbies[i], st.players)
    ensures var j := JoinLobby(st.lobbies, st.players, name, built);
      Formed(j.lobbies, j.players)
  {
    forall i | 0 <= i < |st.lobbies| ensures SeatsKnown(st.lobbies[i], st.players) {
      assert Shaped(st.lobbies[i], st.players);
    }
    FirstOpenSpec(st.lobbies);
    match FirstOpen(st.lobbies)
    case None =>
      AppendKeepsShape(st.lobbies, st.players, NewLobby(name, built));
    case Some(i) =>
      assert Shaped(st.lobbies[i], st.players) && !Seated(st.lobbies[i], name);
      var l0 := st.lobbies[i];
      var d := DealHands(TakeSeat(l0, name), st.players[l0.player1.value], st.players[name], built);
      JoinSecondShape(st.lobbies, st.players, name, built, i, d.0, d.1, d.2);
  }

  lemma JoinSecondShape(lobbies: seq<Lobby>, players: map<string, Player>, name: string, built: seq<Card>, i: nat,
                         l': Lobby, h1: seq<Card>, h2: seq<Card>)
    requires |built| == DeckSize
    requires Formed(lobbies, players)
    requires i < |lobbies| && !IsFull(lobbies[i]) && SeatsKnown(lobbies[i], players) && name in players
    requires forall k :: 0 <= k < |lobbies| ==> !Seated(lobbies[k], name)
    requires (l', h1, h2) == DealHands(TakeSeat(lobbies[i], name), players[lobbies[i].player1.value], players[name], built)
    ensures var n1 := lobbies[i].player1.value;
      Formed(lobbies[i := l'], players[n1 := players[n1].(hand := h1)][name := players[name].(hand := h2)])
  {
    var l0 := lobbies[i];
    var n1 := l0.player1.value;
    var l := TakeSeat(l0, name);
    DealKeepsSeats(l, players[n1], players[name], built);
    SeatSecondShape(lobbies, players, i, name, l', h1, h2);
  }

  /** Lobby `i`, seating one player, replaced by a full lobby that adds
      `name`, with new hands for both: the lobbies stay well formed. */
  lemma SeatSecondShape(lobbies: seq<Lobby>, players: map<string, Player>, i: nat, name: string, l: Lobby, h1: seq<Card>, h2: seq<Card>)
    requires Formed(lobbies, players)
    requires i < |lobbies| && lobbies[i].player1.Some? && name in players
    requires forall k :: 0 <= k < |lobbies| ==> !Seated(lobbies[k], name)
    requires l.player1 == lobbies[i].player1 && l.player2 == Some(name) && l.discardPile != []
    ensures var n1 := lobbies[i].player1.value;
      Formed(lobbies[i := l], players[n1 := players[n1].(hand := h1)][name := players[name].(hand := h2)])
  {
    var n1 := lobbies[i].player1.value;
    assert Shaped(lobbies[i], players);
    HandKeepsShape(lobbies, players, n1, h1);
    var ps := players[n1 := players[n1].(hand := h1)];
    HandKeepsShape(lobbies, ps, name, h2);
    ReplaceKeepsShape(lobbies, ps[name := ps[name].(hand := h2)], i, l, name);
  }

  /** A new hand for a known player keeps the lobbies well formed. */
  lemma HandKeepsShape(lobbies: seq<Lobby>, players: map<string, Player>, n: string, h: seq<Card>)
    requires Formed(lobbies, players) && n in players
    ensures Formed(lobbies, players[n := players[n].(hand := h)])
  {
    forall k | 0 <= k < |lobbies| ensures Shaped(lobbies[k], players[n := players[n].(hand := h)]) {
      assert Shaped(lobbies[k], players);
    }
  }

  /** Appending a lobby that seats only a new name keeps the lobbies well
      formed. */
  lemma AppendKeepsShape(lobbies: seq<Lobby>, players: map<string, Player>, l: Lobby)
    requires Formed(lobbies, players)
    requires Shaped(l, players) && l.player2.None?
    requires forall k :: 0 <= k < |lobbies| ==> !Seated(lobbies[k], l.player1.value)
    ensures Formed(lobbies + [l], players)
  {
    var ls := lobbies + [l];
    forall a, b | 0 <= a < |ls| && 0 <= b < |ls| && a != b ensures Apart(ls[a], ls[b]) {
      if a < |lobbies| && b < |lobbies| {
        assert Apart(lobbies[a], lobbies[b]);
      }
    }
  }

  /** Replacing lobby `i` by a shaped one with the same first seat and
      either the same second seat or a new name there keeps the lobbies
      well formed. */
  lemma ReplaceKeepsShape(lobbies: seq<Lobby>, players: map<string, Player>, i: nat, l: Lobby, name: string)
    requires Formed(lobbies, players)
    requires i < |lobbies|
    requires Shaped(l, players)
    requires l.player1 == lobbies[i].player1
    requires l.player2 == lobbies[i].player2 || l.player2 == Some(name)
    requires forall k :: 0 <= k < |lobbies| ==> !Seated(lobbies[k], name)
    ensures Formed(lobbies[i := l], players)
  {
    var ls := lobbies[i := l];
    forall k | 0 <= k < |ls| ensures Shaped(ls[k], players) {
      if k != i {
        assert Shaped(lobbies[k], players);
      }
    }
    forall a, b | 0 <= a < |ls| && 0 <= b < |ls| && a != b ensures Apart(ls[a], ls[b]) {
      assert Apart(lobbies[a], lobbies[b]);
      assert !Seated(lobbies[a], name) && !Seated(lobbies[b], name);
    }
  }

  // ---------------------------------------------------------------------
  // broadcast_game_state, notifications and handle_reconnection
  // ---------------------------------------------------------------------

  /** The game_state_update object broadcast_game_state and handle_reconnection send. */
  function StateUpdate(l: Lobby, players: map<string, Player>): JsonObject
    requires IsFull(l) && SeatsKnown(l, players) && l.discardPile != []
  {
    var n1 := l.player1.value;
    var n2 := l.player2.value;
    var g1 := WithArray(WithString(map[], "type", "game_state_update"), "players", [n1, n2]);
    var g2 := WithString(g1, "current_player", Current(l.gameState));
    var g3 := WithInt(WithInt(g2, "deck_size", |l.deck|), "discard_pile", |l.discardPile|);
    var g4 := WithCard(g3, "top_card", l.discardPile[|l.discardPile| - 1]);
    WithHands(g4, map[n1 := players[n1].hand][n2 := players[n2].hand])
  }

  /** broadcast_game_state: the update to player 1, then to player 2;
      nothing for a lobby that is not full. */
  function Broadcast(l: Lobby, players: map<string, Player>): seq<Outgoing>
    requires Shaped(l, players)
  {
    if IsFull(l) then
      var u := StateUpdate(l, players);
      [Outgoing(players[l.player1.value].address, u), Outgoing(players[l.player2.value].address, u)]
    else []
  }

  /** notify_reconnection / notify_disconnection: the other seat hears of it
      only if it is taken and its player is connected. */
  function NotifyOther(l: Lobby, players: map<string, Player>, name: string, kind: string, text: string): seq<Outgoing>
    requires SeatsKnown(l, players)
  {
    match OtherSeat(l, name)
    case None => []
    case Some(o) =>
      if !players[o].disconnected then [Outgoing(players[o].address, Notice(kind, name, text))] else []
  }

  /** handle_reconnection. An unknown or connected name gets an error; a
      known disconnected one outside every lobby is ignored; otherwise the
      player is marked connected at the new address and seen now, the lobby
      is unpaused when both players are connected, the game state goes to
      the new address and the other player is notified. (A disconnected
      player only sits in a full lobby, so the code's reads of both seats
      are defined.) */
  function Reconnect(st: State, name: string, addr: Address, now: int): State
    requires WellFormed(st)
  {
    if name !in st.players || !st.players[name].disconnected then
      st.(outbox := st.outbox + [Outgoing(addr, ErrorMessage(InvalidReconnection))])
    else match LobbyOf(st.lobbies, name)
      case None => st
      case Some(i) =>
        var l := st.lobbies[i];
        assert Shaped(l, st.players);
        if !IsFull(l) then st else Restore(st, i, name, addr, now)
  }

  /** The reconnection proper, for the player `name` of the full lobby `i`. */
  function Restore(st: State, i: nat, name: string, addr: Address, now: int): State
    requires i < |st.lobbies| && IsFull(st.lobbies[i]) && Shaped(st.lobbies[i], st.players) && name in st.players
  {
    var l := st.lobbies[i];
    var players := st.players[name := st.players[name].(address := addr, disconnected := false, lastSeen := now)];
    var l' := if !players[l.player1.value].disconnected && !players[l.player2.value].disconnected
              then l.(paused := false) else l;
    var sent := [Outgoing(addr, StateUpdate(l', players))]
      + NotifyOther(l', players, name, "player_reconnected", "Player " + name + " has reconnected.");
    State(st.lobbies[i := l'], players, st.outbox + sent)
  }

  // ---------------------------------------------------------------------
  // connect and heartbeat
  // ---------------------------------------------------------------------

  /** The three ways the connect branch goes. */
  datatype ConnectChoice = Rejoin(name: string) | Taken | Register(name: string)

  /** The connect branch's decision as written: the name-taken checks look
      up the name as received, but the player is registered under
      remove_quotes of it. */
  function ConnectChoiceAsWritten(players: map<string, Player>, raw: string): ConnectChoice
  {
    if raw in players && players[raw].disconnected then Rejoin(raw)
    else if raw in players then Taken
    else Register(RemoveQuotes(raw))
  }

  /** The decision with every check made on the name that gets registered. */
  function ConnectChoiceOf(players: map<string, Player>, raw: string): ConnectChoice
  {
    var name := RemoveQuotes(raw);
    if name in players && players[name].disconnected then Rejoin(name)
    else if name in players then Taken
    else Register(name)
  }

  /** The connect_ack object; a full lobby's ack also carries the game state. */
  function ConnectAck(name: string, l: Lobby, players: map<string, Player>): JsonObject
    requires Shaped(l, players)
  {
    var a := WithBool(WithString(WithString(map[], "type", "connect_ack"), "player_id", name), "waiting_for_player", !IsFull(l));
    if IsFull(l) then
      var n1 := l.player1.value;
      var n2 := l.player2.value;
      var g1 := WithString(WithArray(a, "players", [n1, n2]), "current_player", n1);
      var g2 := WithInt(WithInt(g1, "deck_size", |l.deck|), "discard_pile", |l.discardPile|);
      var g3 := WithCard(g2, "top_card", l.discardPile[|l.discardPile| - 1]);
      WithHands(g3, map[n1 := players[n1].hand][n2 := players[n2].hand])
    else a
  }

  /** Registering a name that is not yet known seats it nowhere and keeps
      the state well formed. */
  lemma AddKeepsShape(st: State, p: Player)
    requires WellFormed(st) && p.name !in st.players
    ensures WellFormed(st.(players := st.players[p.name := p]))
    ensures forall i :: 0 <= i < |st.lobbies| ==> !Seated(st.lobbies[i], p.name)
  {
    forall i | 0 <= i < |st.lobbies|
      ensures Shaped(st.lobbies[i], st.players[p.name := p]) && !Seated(st.lobbies[i], p.name)
    {
      assert Shaped(st.lobbies[i], st.players);
    }
  }

  /** A new name: registered with an empty hand, seated, acknowledged, and,
      if that filled the lobby, both players sent the game state; `built`
      is the deck find_or_create_lobby constructs. */
  function RegisterWith(st: State, name: string, addr: Address, now: int, built: seq<Card>): State
    requires WellFormed(st) && name !in st.players && |built| == DeckSize
  {
    var p := Player(name, addr, now, [], false);
    var st1 := st.(players := st.players[name := p]);
    AddKeepsShape(st, p);
    JoinKeepsShape(st1, name, built);
    var j := JoinLobby(st1.lobbies, st1.players, name, built);
    var l := j.lobbies[j.index];
    var out := st.outbox + [Outgoing(addr, ConnectAck(name, l, j.players))];
    State(j.lobbies, j.players, if IsFull(l) then out + Broadcast(l, j.players) else out)
  }

  /** The same, with the deck shuffled by `rolls`. */
  function RegisterPlayer(st: State, name: string, addr: Address, now: int, rolls: seq<nat>): State
    requires WellFormed(st) && name !in st.players
  {
    RegisterWith(st, name, addr, now, NewDeck(rolls))
  }

  /** The connect branch, with the checks made on the registered name. */
  function Connect(st: State, raw: string, addr: Address, now: int, rolls: seq<nat>): State
    requires WellFormed(st)
  {
    match ConnectChoiceOf(st.players, raw)
    case Rejoin(name) => Reconnect(st, name, addr, now)
    case Taken => st.(outbox := st.outbox + [Outgoing(addr, Message("name_taken", "message", NameInUse))])
    case Register(name) => RegisterPlayer(st, name, addr, now, rolls)
  }

  /** The heartbeat branch: a known player is seen now; a disconnected one
      then goes through handle_reconnection, a connected one moves to the
      sender's address. An unknown name is ignored. */
  function Heartbeat(st: State, name: string, addr: Address, now: int): State
    requires WellFormed(st)
  {
    if name !in st.players then st
    else
      var p := st.players[name].(lastSeen := now);
      if p.disconnected then
        var players := st.players[name := p];
        FlagsKeepShape(st, players);
        Reconnect(st.(players := players), name, addr, now)
      else st.(players := st.players[name := p.(address := addr)])
  }

  // ---------------------------------------------------------------------
  // play_card
  // ---------------------------------------------------------------------

  /** The std::find_if over the hand: the first card whose text is `text`. */
  function FindCard(hand: seq<Card>, text: string): (r: Option<nat>)
    ensures r.Some? ==> r.value < |hand|
  {
    if hand == [] then None
    else if ToString(hand[0]) == text then Some(0)
    else match FindCard(hand[1..], text)
      case None => None
      case Some(i) => Some(i + 1)
  }

  /** The move check: the card matches the top card's suit or its value. */
  predicate Matches(c: Card, top: Card)
  {
    c.suit == top.suit || c.value == top.value
  }

  /** The deck and a hand after the seven's draws. */
  datatype Drawn = Drawn(deck: seq<Card>, hand: seq<Card>)

  /** The seven's loop: `n` times, a card from the back of the deck onto the
      hand if the deck still has one. */
  function DrawUpTo(deck: seq<Card>, hand: seq<Card>, n: nat): Drawn
    decreases n
  {
    if n == 0 || deck == [] then Drawn(deck, hand)
    else DrawUpTo(deck[..|deck| - 1], hand + [deck[|deck| - 1]], n - 1)
  }

  /** The table fields play_card and draw_card rewrite, in their order: the
      hands, the discard pile size and the deck size. */
  function RecordTable(gs: JsonObject, n1: string, n2: string, h1: seq<Card>, h2: seq<Card>, deck: seq<Card>, discard: seq<Card>): JsonObject
  {
    var g := WithNested(gs, "current_player_hand", HandsObject(n1, h1, n2, h2));
    WithInt(WithInt(g, "discard_pile", |discard|), "deck_size", |deck|)
  }

  /** The cards after playing card `k` of the mover's hand: the deck, the
      discard pile, the mover's hand and the other hand. */
  datatype Moved = Moved(deck: seq<Card>, discard: seq<Card>, mine: seq<Card>, theirs: seq<Card>)

  /** The card goes onto the discard pile and leaves the hand; a seven
      makes the other hand draw up to two cards. */
  function MoveCard(deck: seq<Card>, discard: seq<Card>, mine: seq<Card>, theirs: seq<Card>, k: nat): Moved
    requires k < |mine|
  {
    var c := mine[k];
    var drawn := if c.value == "7" then DrawUpTo(deck, theirs, 2) else Drawn(deck, theirs);
    Moved(drawn.deck, discard + [c], mine[..k] + mine[k + 1..], drawn.hand)
  }

  /** A move before the win check: the lobby, both hands, whether the turn
      stays, and the note for the other player. */
  datatype Played = Played(lobby: Lobby, hand1: seq<Card>, hand2: seq<Card>, skip: bool, note: string)

  /** Playing card `k` of the mover's hand (seat 1 when `first`): the cards
      move as MoveCard says; a seven or an ace keeps the turn; the game
      state records the top card and the table. */
  function PlayOn(l: Lobby, n1: string, n2: string, h1: seq<Card>, h2: seq<Card>, first: bool, k: nat, name: string): Played
    requires k < |if first then h1 else h2|
  {
    var mine := if first then h1 else h2;
    var theirs := if first then h2 else h1;
    var c := mine[k];
    var mv := MoveCard(l.deck, l.discardPile, mine, theirs, k);
    var note :=
      if c.value == "7" then "Player " + name + " played a seven, you take two cards and skip a turn."
      else if c.value == "A" then "Player " + name + " played an ace you skip a turn."
      else "Player " + name + " played a card.";
    var nh1 := if first then mv.mine else mv.theirs;
    var nh2 := if first then mv.theirs else mv.mine;
    var gs := RecordTable(WithCard(l.gameState, "top_card", c), n1, n2, nh1, nh2, mv.deck, mv.discard);
    Played(l.(deck := mv.deck, discardPile := mv.discard, gameState := gs), nh1, nh2, c.value == "7" || c.value == "A", note)
  }

  /** The pair's other name. */
  function Flip(cur: string, n1: string, n2: string): string
  {
    if cur == n1 then n2 else n1
  }

  /** play_card once the turn check has passed. The mover is seat 1 if the
      current player is seat 1's name, else seat 2. The card is looked up by
      its text in the mover's hand and checked against the top discard. */
  function PlayTurn(st: State, i: nat, text: string, name: string, addr: Address): State
    requires WellFormed(st) && i < |st.lobbies| && IsFull(st.lobbies[i])
  {
    var l := st.lobbies[i];
    assert Shaped(l, st.players);
    var mover := if Current(l.gameState) == l.player1.value then l.player1.value else l.player2.value;
    match FindCard(st.players[mover].hand, text)
    case None => st.(outbox := st.outbox + [Outgoing(addr, ErrorMessage(CardNotInHand))])
    case Some(k) => PlayMatching(st, i, k, name, addr)
  }

  /** play_card once card `k` of the mover's hand has the text: refused
      unless it matches the top discard, else accepted. */
  function PlayMatching(st: State, i: nat, k: nat, name: string, addr: Address): State
    requires i < |st.lobbies| && IsFull(st.lobbies[i]) && Shaped(st.lobbies[i], st.players)
    requires var l := st.lobbies[i];
      k < |st.players[if Current(l.gameState) == l.player1.value then l.player1.value else l.player2.value].hand|
  {
    var l := st.lobbies[i];
    var mover := if Current(l.gameState) == l.player1.value then l.player1.value else l.player2.value;
    if !Matches(st.players[mover].hand[k], l.discardPile[|l.discardPile| - 1]) then
      st.(outbox := st.outbox + [Outgoing(addr, ErrorMessage(InvalidMove))])
    else Accept(st, i, k, name)
  }

  /** An accepted play of card `k` of the mover's hand: it either ends the
      game (the mover's hand is empty) or passes the turn unless it was a
      seven or an ace, tells the other player and broadcasts. */
  function Accept(st: State, i: nat, k: nat, name: string): State
    requires i < |st.lobbies| && IsFull(st.lobbies[i]) && Shaped(st.lobbies[i], st.players)
    requires var l := st.lobbies[i];
      k < |st.players[if Current(l.gameState) == l.player1.value then l.player1.value else l.player2.value].hand|
  {
    var l := st.lobbies[i];
    var n1 := l.player1.value;
    var n2 := l.player2.value;
    var cur := Current(l.gameState);
    var first := cur == n1;
    var p := PlayOn(l, n1, n2, st.players[n1].hand, st.players[n2].hand, first, k, name);
    if (if first then p.hand1 else p.hand2) == [] then Win(st, i, cur)
    else Advance(st, i, p, "player_played_card")
  }

  /** The win: both players are told who won, and are removed with the
      lobby. */
  function Win(st: State, i: nat, winner: string): State
    requires i < |st.lobbies| && IsFull(st.lobbies[i]) && SeatsKnown(st.lobbies[i], st.players)
  {
    var n1 := st.lobbies[i].player1.value;
    var n2 := st.lobbies[i].player2.value;
    var w := GameOver(winner, "Game Over! winner: " + winner);
    State(st.lobbies[..i] + st.lobbies[i + 1..], st.players - {n1, n2},
          st.outbox + [Outgoing(st.players[n1].address, w), Outgoing(st.players[n2].address, w)])
  }

  /** A move that does not win (a play, or a draw): the new table, the
      turn passed unless the move keeps it, the note to the other player
      (a message of type `kind`), and the broadcast. */
  function Advance(st: State, i: nat, p: Played, kind: string): State
    requires i < |st.lobbies| && IsFull(st.lobbies[i]) && Shaped(st.lobbies[i], st.players)
    requires p.lobby.player1 == st.lobbies[i].player1 && p.lobby.player2 == st.lobbies[i].player2
    requires p.lobby.discardPile != []
  {
    var l := st.lobbies[i];
    var n1 := l.player1.value;
    var n2 := l.player2.value;
    var cur := Current(l.gameState);
    var first := cur == n1;
    var mover := if first then n1 else n2;
    var other := if first then n2 else n1;
    var players := st.players[n1 := st.players[n1].(hand := p.hand1)][n2 := st.players[n2].(hand := p.hand2)];
    var gs := if p.skip then p.lobby.gameState else WithString(p.lobby.gameState, "current_player", Flip(cur, n1, n2));
    var l' := p.lobby.(gameState := gs);
    var out := st.outbox + [Outgoing(players[other].address, MoveNotice(kind, mover, p.note))];
    State(st.lobbies[i := l'], players, out + Broadcast(l', players))
  }

  // ---------------------------------------------------------------------
  // draw_card
  // ---------------------------------------------------------------------

  /** The refill before a draw: an empty deck takes every discard but the
      top one, shuffled by `rolls`; with fewer than two discards there is
      nothing to refill from. A deck with cards is left alone. */
  function Refill(l: Lobby, rolls: seq<nat>): Option<Lobby>
  {
    if l.deck != [] then Some(l)
    else if |l.discardPile| > 1 then
      var top := l.discardPile[|l.discardPile| - 1];
      Some(l.(deck := l.deck + Shuffle(l.discardPile[..|l.discardPile| - 1], rolls), discardPile := [top]))
    else None
  }

  /** A refill leaves a deck to draw from, keeps the top discard, and
      touches nothing but the deck and the discard pile. */
  lemma RefillKeepsTop(l: Lobby, rolls: seq<nat>)
    requires l.discardPile != []
    requires Refill(l, rolls).Some?
    ensures var r := Refill(l, rolls).value;
      && r.deck != [] && r.discardPile != []
      && r.discardPile[|r.discardPile| - 1] == l.discardPile[|l.discardPile| - 1]
      && r == l.(deck := r.deck, discardPile := r.discardPile)
  {
    if l.deck == [] {
      ShufflePermutes(l.discardPile[..|l.discardPile| - 1], rolls);
    }
  }

  /** draw_card once the turn check has passed: refill if needed, then
      take a card; an error if nothing can be refilled. */
  function DrawTurn(st: State, i: nat, name: string, addr: Address, rolls: seq<nat>): State
    requires WellFormed(st) && i < |st.lobbies| && IsFull(st.lobbies[i])
  {
    var l := st.lobbies[i];
    assert Shaped(l, st.players);
    match Refill(l, rolls)
    case None => st.(outbox := st.outbox + [Outgoing(addr, ErrorMessage(CannotRefill))])
    case Some(r) =>
      RefillKeepsTop(l, rolls);
      var n1 := l.player1.value;
      var n2 := l.player2.value;
      var p := DrawOn(r, n1, n2, st.players[n1].hand, st.players[n2].hand, Current(l.gameState) == n1, name);
      Advance(st, i, p, "player_drawn_card")
  }

  /** The draw from the (refilled) lobby `r`: the deck's back card goes to
      the mover (seat 1 when `first`) and the table is recorded; the turn
      is not kept. */
  function DrawOn(r: Lobby, n1: string, n2: string, h1: seq<Card>, h2: seq<Card>, first: bool, name: string): Played
    requires r.deck != []
  {
    var c := r.deck[|r.deck| - 1];
    var deck := r.deck[..|r.deck| - 1];
    var nh1 := if first then h1 + [c] else h1;
    var nh2 := if first then h2 else h2 + [c];
    var gs := RecordTable(r.gameState, n1, n2, nh1, nh2, deck, r.discardPile);
    Played(r.(deck := deck, gameState := gs), nh1, nh2, false, "Player " + name + " draw a card.")
  }

  // ---------------------------------------------------------------------
  // handle_message and the receive loop
  // ---------------------------------------------------------------------

  /** The play_card / draw_card branch for the sender `name`: nothing
      unless the sender's lobby is full; an error unless it is the sender's
      turn; then the move. None when a play lacks the "card" field (the
      const operator[] throws). */
  function TakeTurn(st: State, msg: JsonObject, kind: string, name: string, addr: Address, rolls: seq<nat>): Option<State>
    requires WellFormed(st)
  {
    match LobbyOf(st.lobbies, name)
    case None => Some(st)
    case Some(i) =>
      if !IsFull(st.lobbies[i]) then Some(st)
      else if Current(st.lobbies[i].gameState) != name then
        Some(st.(outbox := st.outbox + [Outgoing(addr, ErrorMessage(NotYourTurn))]))
      else if kind == "play_card" then
        match Lookup(msg, "card")
        case Err(_) => None
        case Ok(text) => Some(PlayTurn(st, i, text, name, addr))
      else Some(DrawTurn(st, i, name, addr, rolls))
  }

  /** handle_message: dispatch on "type". None when a field the branch
      reads is missing, so that the const operator[] throws. */
  function HandleMessage(st: State, msg: JsonObject, addr: Address, now: int, rolls: seq<nat>): Option<State>
    requires WellFormed(st)
  {
    match Lookup(msg, "type")
    case Err(_) => None
    case Ok(kind) =>
      if kind == "connect" then
        match Lookup(msg, "name")
        case Err(_) => None
        case Ok(raw) => Some(Connect(st, raw, addr, now, rolls))
      else if kind == "heartbeat" then
        match Lookup(msg, "name")
        case Err(_) => None
        case Ok(name) => Some(Heartbeat(st, name, addr, now))
      else if kind == "play_card" || kind == "draw_card" then
        match Lookup(msg, "player_name")
        case Err(_) => None
        case Ok(name) => TakeTurn(st, msg, kind, name, addr, rolls)
      else Some(st)
  }

  /** One pass of the receive loop in start(): parse the datagram and
      handle it; a parse failure, or a throw while handling, is answered
      with {"type": "unknown"}. */
  function HandleDatagram(st: State, text: string, addr: Address, now: int, rolls: seq<nat>): State
    requires WellFormed(st)
  {
    var parsed := DeserializeObject(text);
    if parsed.failure.Some? then st.(outbox := st.outbox + [Outgoing(addr, UnknownMessage())])
    else match HandleMessage(st, parsed.data, addr, now, rolls)
      case None => st.(outbox := st.outbox + [Outgoing(addr, UnknownMessage())])
      case Some(st') => st'
  }

  // ---------------------------------------------------------------------
  // check_disconnections
  // ---------------------------------------------------------------------

  /** One lobby's pass of the sweep: the players and sends it leaves, and
      whether the lobby goes. */
  datatype Swept = Swept(players: map<string, Player>, out: seq<Outgoing>, delete: bool)

  /** The short check for one seat: a player unseen for more than 10 s who
      is still marked connected is marked disconnected, and the other seat
      is notified. */
  function MarkIfGone(l: Lobby, players: map<string, Player>, out: seq<Outgoing>, n: string, now: int): (r: (map<string, Player>, seq<Outgoing>))
    requires SeatsKnown(l, players) && n in players
    ensures r.0.Keys == players.Keys
  {
    if now - players[n].lastSeen > ShortDisconnectThreshold && !players[n].disconnected then
      var ps := players[n := players[n].(disconnected := true)];
      (ps, out + NotifyOther(l, ps, n, "player_disconnected", "Player " + n + " has disconnected."))
    else (players, out)
  }

  /** The body of check_disconnections' loop for one lobby: the short check
      on each seat, the lone player's lobby marked for deletion, then in a
      full lobby the long check (seat 2 read last, so it names the
      opponent when both are over). A deleted lobby takes its players out
      of the table, after a game_over to a connected opponent. */
  function SweepLobby(l: Lobby, players: map<string, Player>, out: seq<Outgoing>, now: int): (r: Swept)
    requires SeatsKnown(l, players)
    ensures r.players.Keys == if r.delete then players.Keys - SeatNames(l) else players.Keys
  {
    var n1 := l.player1.value;
    var (ps1, out1) := MarkIfGone(l, players, out, n1, now);
    var lone := l.player2.None? && ps1[n1].disconnected && !players[n1].disconnected;
    var (ps2, out2) := if l.player2.Some? then MarkIfGone(l, ps1, out1, l.player2.value, now) else (ps1, out1);
    if lone then Swept(ps2 - {n1}, out2, true)
    else if IsFull(l) then
      var n2 := l.player2.value;
      var long1 := ps2[n1].disconnected && now - ps2[n1].lastSeen > LongDisconnectThreshold;
      var long2 := ps2[n2].disconnected && now - ps2[n2].lastSeen > LongDisconnectThreshold;
      if long1 || long2 then
        var other := if long2 then n1 else n2;
        var msgs := if !ps2[other].disconnected then [Outgoing(ps2[other].address, GameOver(other, AbandonedGame))] else [];
        Swept(ps2 - {n1, n2}, out2 + msgs, true)
      else Swept(ps2, out2, false)
    else Swept(ps2, out2, false)
  }

  /** What the sweep leaves: the lobbies kept, the players, the sends. */
  datatype Sweep = Sweep(kept: seq<Lobby>, players: map<string, Player>, out: seq<Outgoing>)

  /** After the first lobby's pass, the rest still seat known players. */
  lemma SweepTail(lobbies: seq<Lobby>, players: map<string, Player>, ps: map<string, Player>)
    requires lobbies != []
    requires forall i :: 0 <= i < |lobbies| ==> SeatsKnown(lobbies[i], players)
    requires SeatsDisjoint(lobbies)
    requires players.Keys - SeatNames(lobbies[0]) <= ps.Keys
    ensures forall i :: 0 <= i < |lobbies[1..]| ==> SeatsKnown(lobbies[1..][i], ps)
    ensures SeatsDisjoint(lobbies[1..])
  {
    forall i | 0 <= i < |lobbies[1..]| ensures SeatsKnown(lobbies[1..][i], ps) {
      var l := lobbies[i + 1];
      assert SeatsKnown(l, players);
      assert Apart(l, lobbies[0]);
    }
    forall a, b | 0 <= a < |lobbies[1..]| && 0 <= b < |lobbies[1..]| && a != b
      ensures Apart(lobbies[1..][a], lobbies[1..][b])
    {
      assert Apart(lobbies[a + 1], lobbies[b + 1]);
    }
  }

  /** check_disconnections' loop over the lobbies in order, each lobby's
      pass seeing the players the earlier passes left. */
  function SweepAll(lobbies: seq<Lobby>, players: map<string, Player>, out: seq<Outgoing>, now: int): Sweep
    requires forall i :: 0 <= i < |lobbies| ==> SeatsKnown(lobbies[i], players)
    requires SeatsDisjoint(lobbies)
    decreases |lobbies|
  {
    if lobbies == [] then Sweep([], players, out)
    else
      var s := SweepLobby(lobbies[0], players, out, now);
      SweepTail(lobbies, players, s.players);
      var rest := SweepAll(lobbies[1..], s.players, s.out, now);
      if s.delete then rest else Sweep([lobbies[0]] + rest.kept, rest.players, rest.out)
  }

  /** One run of check_disconnections' loop at time `now`. */
  function CheckDisconnections(st: State, now: int): State
    requires WellFormed(st)
  {
    assert forall i :: 0 <= i < |st.lobbies| ==> SeatsKnown(st.lobbies[i], st.players) by {
      forall i | 0 <= i < |st.lobbies| ensures SeatsKnown(st.lobbies[i], st.players) {
        assert Shaped(st.lobbies[i], st.players);
      }
    }
    var s := SweepAll(st.lobbies, st.players, st.outbox, now);
    State(s.kept, s.players, s.out)
  }
}
